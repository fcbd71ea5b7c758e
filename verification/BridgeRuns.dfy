/** What holds over every run of a bridge, its callbacks, texts, flushes, reconnects and stop interleaved in any order,
    each taken as one step under the lock. */
module BridgeRuns {
  import opened Sequences
  import opened Protocol
  import opened Session
  import opened SessionRuns
  import opened Bridge
  import Q = OutboundQueue
  import P = Playout
  import T = Timeline

  /** A `late` step passed its test of the flags before they last changed. `SocketLost` is a poll error or a close
      frame; `ReconnectFailed` ends the worker, after or before the old socket was closed. A flush's `budget` is the
      number of frames the socket takes before it refuses one. */
  datatype Event =
    | ReadCallback(pcm: seq<int16>, locked: bool, late: bool)
    | WriteCallback(frame: seq<int16>, locked: bool, late: bool, nowNs: nat)
    | Text(json: Option<Json>, local: bool, late: bool, nowNs: nat, budget: nat)
    | WorkerFlush(budget: nat)
    | SocketLost
    | ReconnectFailed(closedOld: bool)
    | Reconnect(budget: nat)
    | Pause(on: bool, late: bool)
    | RequestClose
    | BeginStop
    | FinishStop(budget: nat)

  /** What only the worker thread does: polling, and with it the peer's texts, flushing and reconnecting. */
  predicate OnWorker(e: Event) {
    e.WorkerFlush? || e.SocketLost? || e.ReconnectFailed? || e.Reconnect? || (e.Text? && !e.local)
  }

  /** The worker is gone, so this does not happen. */
  predicate Absent(b: Bridge, e: Event) {
    OnWorker(e) && !b.working
  }

  function Next(b: Bridge, e: Event): (r: Bridge)
    requires Fits(b.session)
    ensures Fits(r.session)
  {
    if Absent(b, e) then b
    else match e
      case ReadCallback(pcm, locked, late) => Captured(b, pcm, locked, late)
      case WriteCallback(frame, locked, late, nowNs) => Spoken(b, |frame|, locked, late, nowNs)
      case Text(json, local, late, nowNs, budget) => Told(b, json, local, late, nowNs, budget)
      case WorkerFlush(budget) => Flushed(b, budget)
      case SocketLost => b.(wsReady := false)
      case ReconnectFailed(closedOld) => GivenUp(b, closedOld)
      case Reconnect(budget) => Reconnected(b, budget)
      case Pause(on, late) => Paused(b, on, late)
      case RequestClose => b.(closing := true)
      case BeginStop => b.(closing := true, cleaning := true)
      case FinishStop(budget) => Finished(b, budget)
  }

  /** One failed attempt ends the worker. */
  function GivenUp(b: Bridge, closedOld: bool): (r: Bridge) {
    b.(hasSocket := b.hasSocket && !closedOld, wsReady := false, working := false)
  }

  /** What an event does to the flags of pause and stop, one kind of event at a time. */
  function PauseFlag(b: Bridge, e: Event): (on: bool) {
    if e.Pause? && (e.late || !b.cleaning) then e.on else b.audioPaused
  }

  ghost predicate FlagsFollow(b: Bridge, e: Event)
    requires Fits(b.session)
  {
    Next(b, e).cleaning == (b.cleaning || e.BeginStop?) && Next(b, e).audioPaused == PauseFlag(b, e)
  }

  lemma {:induction false} CallbackFlags(b: Bridge, e: Event)
    requires Fits(b.session) && (e.ReadCallback? || e.WriteCallback?)
    ensures FlagsFollow(b, e)
  {}

  lemma {:induction false} TextFlags(b: Bridge, e: Event)
    requires Fits(b.session) && e.Text?
    ensures FlagsFollow(b, e)
  {}

  lemma {:induction false} SocketFlags(b: Bridge, e: Event)
    requires Fits(b.session) && (e.WorkerFlush? || e.SocketLost? || e.ReconnectFailed?)
    ensures FlagsFollow(b, e)
  {}

  lemma {:induction false} ReconnectFlags(b: Bridge, e: Event)
    requires Fits(b.session) && e.Reconnect?
    ensures FlagsFollow(b, e)
  {}

  lemma {:induction false} PauseFlags(b: Bridge, e: Event)
    requires Fits(b.session) && e.Pause?
    ensures FlagsFollow(b, e)
  {}

  lemma {:induction false} StopFlags(b: Bridge, e: Event)
    requires Fits(b.session) && (e.RequestClose? || e.BeginStop? || e.FinishStop?)
    ensures FlagsFollow(b, e)
  {}

  lemma {:induction false} NextFlags(b: Bridge, e: Event)
    requires Fits(b.session)
    ensures FlagsFollow(b, e)
  {
    match e {
      case ReadCallback(_, _, _) => CallbackFlags(b, e);
      case WriteCallback(_, _, _, _) => CallbackFlags(b, e);
      case Text(_, _, _, _, _) => TextFlags(b, e);
      case WorkerFlush(_) => SocketFlags(b, e);
      case SocketLost => SocketFlags(b, e);
      case ReconnectFailed(_) => SocketFlags(b, e);
      case Reconnect(_) => ReconnectFlags(b, e);
      case Pause(_, _) => PauseFlags(b, e);
      case RequestClose => StopFlags(b, e);
      case BeginStop => StopFlags(b, e);
      case FinishStop(_) => StopFlags(b, e);
    }
  }

  lemma {:induction false} NextHold(b: Bridge, e: Event)
    requires Fits(b.session)
    ensures e.ReadCallback? || Next(b, e).hold == b.hold
    ensures |b.hold| < 160 ==> |Next(b, e).hold| < 160
  {}

  /** The session actions an event amounts to before any flush that ends it. */
  function Before(b: Bridge, e: Event): (acts: seq<Action>) {
    if Absent(b, e) then []
    else match e
      case ReadCallback(pcm, locked, late) =>
        if Listens(b, locked, late) then [PushPcm(b.hold + Fold(b.stereo, b.halve, pcm))] else []
      case WriteCallback(frame, locked, late, nowNs) =>
        if Speaks(b, |frame|, locked, late) then WriteActs(b.session, |frame|, nowNs) else []
      case Text(json, local, late, nowNs, _) =>
        if Deaf(b, local, late) then [] else [PeerCommand(Classify(b.session, json), nowNs)]
      case Reconnect(_) => if ShuttingDown(b) then [] else [Rehandshake]
      case Pause(on, late) => if b.cleaning && !late then [] else [SetPaused(on)]
      case FinishStop(_) => if b.cleaning then [StopStream] else []
      case _ => []
  }

  lemma {:induction false} BeforeShape(b: Bridge, e: Event)
    ensures |Before(b, e)| <= 2
    ensures |Before(b, e)| == 2 ==> e.WriteCallback? && Before(b, e) == WriteActs(b.session, |e.frame|, e.nowNs)
    ensures |Before(b, e)| == 2 ==> Before(b, e)[1].NoteWrite?
  {}

  /** The budget of the flush an event ends with, if it ends with one. */
  function FlushOf(b: Bridge, e: Event): (r: Option<nat>) {
    if Absent(b, e) then None
    else match e
      case Text(_, local, late, _, budget) => if !Deaf(b, local, late) && Ready(b) then Some(budget) else None
      case WorkerFlush(budget) => if Ready(b) then Some(budget) else None
      case Reconnect(budget) => if ShuttingDown(b) then None else Some(budget)
      case FinishStop(budget) => if b.cleaning && b.hasSocket then Some(budget) else None
      case _ => None
  }

  function Acts(b: Bridge, e: Event): (acts: seq<Action>)
    requires Fits(b.session)
  {
    var s := Run(b.session, Before(b, e));
    Before(b, e) + (if FlushOf(b, e).Some? then FlushActs(s, FlushOf(b, e).value) else [])
  }

  /** What an event puts on the wire. */
  function WireOf(b: Bridge, e: Event): (msgs: seq<Message>)
    requires Fits(b.session)
  {
    if FlushOf(b, e).Some? then FlushWire(Run(b.session, Before(b, e)), FlushOf(b, e).value) else []
  }

  /** Every event is a run of session actions. */
  lemma {:induction false} NextIsRun(b: Bridge, e: Event)
    requires Fits(b.session)
    ensures Next(b, e).session == Run(b.session, Acts(b, e))
  {
    var before := Before(b, e);
    var s := Run(b.session, before);
    BeforeIsRun(b, e);
    if FlushOf(b, e).Some? {
      RunAppend(b.session, before, FlushActs(s, FlushOf(b, e).value));
      FlushIsRun(s, FlushOf(b, e).value);
    } else {
      assert before + [] == before;
    }
  }

  /** The session that an event leaves, from the one its actions leave, one kind of event at a time. */
  ghost predicate Flushes(b: Bridge, e: Event, s: Session)
    requires Fits(b.session) && Fits(s)
  {
    Next(b, e).session == if FlushOf(b, e).Some? then Flush(s, FlushOf(b, e).value) else s
  }

  lemma {:induction false} CallbackIsRun(b: Bridge, e: Event)
    requires Fits(b.session) && (e.ReadCallback? || e.WriteCallback?)
    ensures Flushes(b, e, Run(b.session, Before(b, e)))
  {
    if e.ReadCallback? {
      RunOne(b.session, PushPcm(b.hold + Fold(b.stereo, b.halve, e.pcm)));
    }
  }

  lemma {:induction false} TextIsRun(b: Bridge, e: Event)
    requires Fits(b.session) && e.Text?
    ensures Flushes(b, e, Run(b.session, Before(b, e)))
  {
    ToldParts(b, e.json, e.local, e.late, e.nowNs, e.budget);
    RunOne(b.session, PeerCommand(Classify(b.session, e.json), e.nowNs));
  }

  lemma {:induction false} ReconnectIsRun(b: Bridge, e: Event)
    requires Fits(b.session) && e.Reconnect?
    ensures Flushes(b, e, Run(b.session, Before(b, e)))
  {
    ReconnectedParts(b, e.budget);
    RunOne(b.session, Rehandshake);
  }

  lemma {:induction false} PauseIsRun(b: Bridge, e: Event)
    requires Fits(b.session) && e.Pause?
    ensures Flushes(b, e, Run(b.session, Before(b, e)))
  {
    if e.late || !b.cleaning {
      PauseTaken(b, e);
      RunOne(b.session, SetPaused(e.on));
    } else {
      PauseRefused(b, e);
    }
  }

  lemma {:induction false} PauseTaken(b: Bridge, e: Event)
    requires Fits(b.session) && e.Pause? && (e.late || !b.cleaning)
    ensures FlushOf(b, e).None? && Before(b, e) == [SetPaused(e.on)]
    ensures Next(b, e).session == Step(b.session, SetPaused(e.on))
  {}

  lemma {:induction false} PauseRefused(b: Bridge, e: Event)
    requires Fits(b.session) && e.Pause? && !e.late && b.cleaning
    ensures FlushOf(b, e).None? && Before(b, e) == [] && Next(b, e).session == b.session
  {}

  lemma {:induction false} FinishIsRun(b: Bridge, e: Event)
    requires Fits(b.session) && e.FinishStop?
    ensures Flushes(b, e, Run(b.session, Before(b, e)))
  {
    if b.cleaning {
      FinishedParts(b, e.budget);
      RunOne(b.session, StopStream);
    }
  }

  lemma {:induction false} SignalIsRun(b: Bridge, e: Event)
    requires Fits(b.session)
    requires e.WorkerFlush? || e.SocketLost? || e.ReconnectFailed? || e.RequestClose? || e.BeginStop?
    ensures Flushes(b, e, Run(b.session, Before(b, e)))
  {
    assert Before(b, e) == [];
  }

  lemma {:induction false} BeforeIsRun(b: Bridge, e: Event)
    requires Fits(b.session)
    ensures Flushes(b, e, Run(b.session, Before(b, e)))
  {
    match e {
      case ReadCallback(_, _, _) => CallbackIsRun(b, e);
      case WriteCallback(_, _, _, _) => CallbackIsRun(b, e);
      case Text(_, _, _, _, _) => TextIsRun(b, e);
      case Reconnect(_) => ReconnectIsRun(b, e);
      case Pause(_, _) => PauseIsRun(b, e);
      case FinishStop(_) => FinishIsRun(b, e);
      case _ => SignalIsRun(b, e);
    }
  }

  // ------------------------------------------------------------------------------------------
  // Runs
  // ------------------------------------------------------------------------------------------

  datatype Setup = Setup(c: Config, stereo: bool, halve: bool, mixing: bool, budget: nat)

  /** A bridge as it starts: the session started once, the socket up, the first flush done, the worker running. */
  function Open(p: Setup): (b: Bridge)
    ensures Fits(b.session)
  {
    var s := Opening(p.c);
    Bridge(Flush(s, p.budget), true, FlushDrains(s, p.budget), true, false, false, false,
           p.stereo, p.halve, p.mixing, [])
  }

  function After(p: Setup, events: seq<Event>): (b: Bridge)
    ensures Fits(b.session)
  {
    if events == [] then Open(p) else Next(After(p, events[..|events| - 1]), events[|events| - 1])
  }

  function AllActs(p: Setup, events: seq<Event>): (acts: seq<Action>) {
    if events == [] then FlushActs(Opening(p.c), p.budget)
    else AllActs(p, events[..|events| - 1]) + Acts(After(p, events[..|events| - 1]), events[|events| - 1])
  }

  /** Everything handed to the socket, in order. */
  function Wire(p: Setup, events: seq<Event>): (msgs: seq<Message>) {
    if events == [] then FlushWire(Opening(p.c), p.budget)
    else Wire(p, events[..|events| - 1]) + WireOf(After(p, events[..|events| - 1]), events[|events| - 1])
  }

  ghost function Trace(p: Setup, events: seq<Event>): (w: World)
    ensures WellFormed(w)
  {
    WorldRun(WorldBegin(p.c), AllActs(p, events))
  }

  lemma {:induction false} WorldSnoc(w: World, acts: seq<Action>, a: Action)
    requires WellFormed(w)
    ensures WorldRun(w, acts + [a]) == WorldStep(WorldRun(w, acts), a)
  {
    assert (acts + [a])[..|acts|] == acts;
  }

  lemma {:induction false} WorldSame(w: World, v: World, long: seq<Action>, longInit: seq<Action>,
                                     short: seq<Action>, shortInit: seq<Action>, a: Action)
    requires WellFormed(w) && WellFormed(v)
    requires long == longInit + [a] && short == shortInit + [a]
    requires WorldRun(w, longInit) == WorldRun(v, shortInit)
    ensures WorldRun(w, long) == WorldRun(v, short)
  {
    WorldSnoc(w, longInit, a);
    WorldSnoc(v, shortInit, a);
  }

  lemma {:induction false} WorldAppend(w: World, a: seq<Action>, b: seq<Action>)
    requires WellFormed(w)
    ensures WorldRun(w, a + b) == WorldRun(WorldRun(w, a), b)
    decreases |b|
  {
    if b == [] {
      assert a + b == a;
    } else {
      var init, last := b[..|b| - 1], b[|b| - 1];
      WorldAppend(w, a, init);
      SplitLast(a, b);
      WorldSame(w, WorldRun(w, a), a + b, a + init, b, init, last);
    }
  }

  /** A bridge run is a session run, so everything proved of session runs holds of it. */
  lemma {:induction false} BridgeRunIsSessionRun(p: Setup, events: seq<Event>)
    ensures After(p, events).session == Run(Opening(p.c), AllActs(p, events))
    ensures Sound(Trace(p, events)) && Trace(p, events).s == After(p, events).session
    decreases |events|
  {
    RunSound(p.c, AllActs(p, events));
    if events == [] {
      FlushIsRun(Opening(p.c), p.budget);
    } else {
      var init, e := events[..|events| - 1], events[|events| - 1];
      BridgeRunIsSessionRun(p, init);
      NextIsRun(After(p, init), e);
      RunAppend(Opening(p.c), AllActs(p, init), Acts(After(p, init), e));
    }
  }

  /** The trace after one more event. */
  lemma {:induction false} TraceStep(p: Setup, events: seq<Event>)
    requires events != []
    ensures var init := events[..|events| - 1];
            Trace(p, events) == WorldRun(Trace(p, init), Acts(After(p, init), events[|events| - 1]))
  {
    var init := events[..|events| - 1];
    WorldAppend(WorldBegin(p.c), AllActs(p, init), Acts(After(p, init), events[|events| - 1]));
  }

  // ------------------------------------------------------------------------------------------
  // Flags that agree
  // ------------------------------------------------------------------------------------------

  /** The session runs until a stop is carried out, and it is paused exactly when the bridge is. */
  ghost predicate InStep(b: Bridge) {
    && Fits(b.session)
    && |b.hold| < 160
    && (b.session.state.Running? || (b.session.state.Stopped? && b.cleaning))
    && b.session.paused == b.audioPaused
  }

  lemma {:induction false} FlushKeepsState(s: Session, budget: nat)
    requires Fits(s)
    ensures Flush(s, budget).state == s.state && Flush(s, budget).paused == s.paused
    ensures Flush(s, budget).outbound.capacity == s.outbound.capacity
    decreases budget
  {
    var h := Harvested(s);
    if h.outbound.items != [] && budget > 0 {
      FlushKeepsState(Step(h, SendHead), budget - 1);
    }
  }

  function StateAfter(b: Bridge, e: Event): (st: State) {
    if e.FinishStop? && b.cleaning then Stopped else b.session.state
  }

  function PausedAfter(b: Bridge, e: Event): (on: bool) {
    if e.Pause? && (e.late || !b.cleaning) then e.on else b.session.paused
  }

  lemma {:induction false} NextInStep(b: Bridge, e: Event)
    requires InStep(b)
    ensures InStep(Next(b, e))
  {
    NextFlags(b, e);
    NextHold(b, e);
    NextState(b, e);
  }

  lemma {:induction false} NextState(b: Bridge, e: Event)
    requires InStep(b)
    ensures Next(b, e).session.state == StateAfter(b, e) && Next(b, e).session.paused == PausedAfter(b, e)
  {
    BeforeIsRun(b, e);
    var s := Run(b.session, Before(b, e));
    if FlushOf(b, e).Some? {
      FlushKeepsState(s, FlushOf(b, e).value);
    }
    StateBefore(b, e);
  }

  lemma {:induction false} StateBefore(b: Bridge, e: Event)
    requires InStep(b)
    ensures var s := Run(b.session, Before(b, e)); s.state == StateAfter(b, e) && s.paused == PausedAfter(b, e)
  {
    var before := Before(b, e);
    BeforeShape(b, e);
    if |before| == 1 {
      assert before == [before[0]];
      RunOne(b.session, before[0]);
      StateOfOne(b, e);
    } else if |before| == 2 {
      WriteRun(b.session, |e.frame|, e.nowNs);
    } else {
      NoActsNoChange(b, e);
    }
  }

  lemma {:induction false} StateOfOne(b: Bridge, e: Event)
    requires InStep(b) && |Before(b, e)| == 1
    ensures var s := Step(b.session, Before(b, e)[0]); s.state == StateAfter(b, e) && s.paused == PausedAfter(b, e)
  {
    StepState(b.session, Before(b, e)[0]);
    OneBefore(b, e);
  }

  lemma {:induction false} StepState(s: Session, a: Action)
    requires Fits(s)
    ensures Step(s, a).state == if a.StopStream? && !s.state.Idle? then Stopped else s.state
    ensures Step(s, a).paused == if a.SetPaused? then a.on else s.paused
  {}

  lemma {:induction false} OneBefore(b: Bridge, e: Event)
    requires |Before(b, e)| == 1
    ensures Before(b, e)[0].StopStream? <==> e.FinishStop? && b.cleaning
    ensures Before(b, e)[0].SetPaused? <==> e.Pause? && (e.late || !b.cleaning)
    ensures e.Pause? ==> Before(b, e)[0] == SetPaused(e.on)
  {}

  lemma {:induction false} NoActsNoChange(b: Bridge, e: Event)
    requires Before(b, e) == []
    ensures StateAfter(b, e) == b.session.state && PausedAfter(b, e) == b.session.paused
  {}

  lemma {:induction false} AlwaysInStep(p: Setup, events: seq<Event>)
    ensures InStep(After(p, events))
    decreases |events|
  {
    if events == [] {
      FlushKeepsState(Opening(p.c), p.budget);
    } else {
      AlwaysInStep(p, events[..|events| - 1]);
      NextInStep(After(p, events[..|events| - 1]), events[|events| - 1]);
    }
  }

  // ------------------------------------------------------------------------------------------
  // The wire
  // ------------------------------------------------------------------------------------------

  lemma {:induction false} FlushTaken(w: World, budget: nat)
    requires Sound(w)
    ensures WorldRun(w, FlushActs(w.s, budget)).q.taken == w.q.taken + FlushWire(w.s, budget)
    decreases budget
  {
    var h := Harvested(w.s);
    if h.outbound.items != [] && budget > 0 {
      var next: nat := budget - 1;
      var turn := [HarvestMarks, SendHead];
      var w2 := WorldRun(w, turn);
      TurnTakes(w);
      FlushOnward(w.s, h, w2.s, budget, next);
      FlushTaken(w2, next);
      WorldAppend(w, turn, FlushActs(w2.s, next));
      Associate(w.q.taken, [h.outbound.items[0]], FlushWire(w2.s, next));
    } else {
      HarvestTakesNothing(w);
      FlushEnd(w.s, h, budget);
      assert w.q.taken + [] == w.q.taken;
    }
  }

  lemma {:induction false} HarvestTakesNothing(w: World)
    requires Sound(w)
    ensures WorldRun(w, [HarvestMarks]) == WorldStep(w, HarvestMarks)
    ensures Sound(WorldStep(w, HarvestMarks)) && WorldStep(w, HarvestMarks).q.taken == w.q.taken
  {
    StepSound(w, HarvestMarks);
    StepHistory(w, HarvestMarks);
    assert [HarvestMarks][..0] == [];
  }

  /** A turn of the flush takes the head that the harvest left. */
  lemma {:induction false} TurnTakes(w: World)
    requires Sound(w) && Harvested(w.s).outbound.items != []
    ensures var w2 := WorldRun(w, [HarvestMarks, SendHead]);
            && Sound(w2) && w2.s == Step(Harvested(w.s), SendHead)
            && w2.q.taken == w.q.taken + [Harvested(w.s).outbound.items[0]]
  {
    HarvestTakesNothing(w);
    WorldSnoc(w, [HarvestMarks], SendHead);
    assert [HarvestMarks] + [SendHead] == [HarvestMarks, SendHead];
    var w1 := WorldStep(w, HarvestMarks);
    StepSound(w1, SendHead);
    SendTakes(w1);
  }

  lemma {:induction false} SendTakes(w: World)
    requires Sound(w) && w.s.outbound.items != []
    ensures WorldStep(w, SendHead).q.taken == w.q.taken + [w.s.outbound.items[0]]
  {
    var ops := QueueOps(w.s, SendHead);
    assert ops[..0] == [];
    assert Q.Run(w.q, ops) == Q.Step(w.q, ops[0]);
  }

  lemma {:induction false} NoSendNoTake(w: World, acts: seq<Action>)
    requires Sound(w) && forall i :: 0 <= i < |acts| ==> !acts[i].SendHead?
    ensures Sound(WorldRun(w, acts)) && WorldRun(w, acts).q.taken == w.q.taken
    decreases |acts|
  {
    if acts != [] {
      NoSendNoTake(w, acts[..|acts| - 1]);
      var w' := WorldRun(w, acts[..|acts| - 1]);
      StepSound(w', acts[|acts| - 1]);
      StepHistory(w', acts[|acts| - 1]);
    }
  }

  lemma {:induction false} EventTakes(w: World, b: Bridge, e: Event)
    requires Sound(w) && w.s == b.session && Fits(b.session)
    ensures WorldRun(w, Acts(b, e)).q.taken == w.q.taken + WireOf(b, e)
  {
    var v := WorldRun(w, Before(b, e));
    BeforeSendsNothing(b, e);
    NoSendNoTake(w, Before(b, e));
    StateOfWorld(w, Before(b, e));
    if FlushOf(b, e).Some? {
      var budget := FlushOf(b, e).value;
      FlushTaken(v, budget);
      WorldAppend(w, Before(b, e), FlushActs(v.s, budget));
      FlushActsAre(b, e, v.s, budget);
    } else {
      NoFlushActs(b, e);
      assert w.q.taken + [] == w.q.taken;
    }
  }

  lemma {:induction false} FlushActsAre(b: Bridge, e: Event, s: Session, budget: nat)
    requires Fits(b.session) && FlushOf(b, e) == Some(budget) && s == Run(b.session, Before(b, e))
    ensures Acts(b, e) == Before(b, e) + FlushActs(s, budget) && WireOf(b, e) == FlushWire(s, budget)
  {}

  lemma {:induction false} StateOfWorld(w: World, acts: seq<Action>)
    requires WellFormed(w)
    ensures WorldRun(w, acts).s == Run(w.s, acts)
    decreases |acts|
  {
    if acts != [] {
      StateOfWorld(w, acts[..|acts| - 1]);
    }
  }

  lemma {:induction false} WireIsTaken(p: Setup, events: seq<Event>)
    ensures Wire(p, events) == Trace(p, events).q.taken
    decreases |events|
  {
    if events == [] {
      BeginSound(p.c);
      FlushTaken(WorldBegin(p.c), p.budget);
      assert [] + FlushWire(Opening(p.c), p.budget) == FlushWire(Opening(p.c), p.budget);
    } else {
      var init, e := events[..|events| - 1], events[|events| - 1];
      WireIsTaken(p, init);
      BridgeRunIsSessionRun(p, init);
      TraceStep(p, events);
      EventTakes(Trace(p, init), After(p, init), e);
    }
  }

  /** The whole outbound story of a bridge run. There is one history of queued messages, in the protocol's language and
      numbered consecutively; the socket received, in that order, all of it up to the queued suffix except the messages
      the bounded queue evicted, and the eviction counter counts those. */
  lemma {:induction false} OutboundOverRuns(p: Setup, events: seq<Event>)
    returns (history: seq<Message>, fates: seq<bool>)
    ensures history == Trace(p, events).q.pushed && fates == Trace(p, events).q.fates
    ensures var s := After(p, events).session;
            && |fates| <= |history|
            && s.outbound.items == history[|fates|..]
            && Wire(p, events) == Select(history[..|fates|], fates)
            && s.outbound.drops + |Wire(p, events)| == |fates|
            && InPhase(s, PhaseAfter(Fresh, history))
            && SeqCounted(s, history) && MediaCounted(s, history)
  {
    var acts := AllActs(p, events);
    BridgeRunIsSessionRun(p, events);
    WireIsTaken(p, events);
    HistoryInLanguage(p.c, acts);
    HistoryNumbered(p.c, acts);
    history, fates := Trace(p, events).q.pushed, Trace(p, events).q.fates;
  }

  /** Until the numbers wrap, a number is missing from everything the sockets received exactly when its message was
      evicted, for every message that has left the queue. */
  lemma {:induction false} WireGapsAreEvictions(p: Setup, events: seq<Event>, i: nat)
    requires var t := Trace(p, events).q;
             i < |t.fates| <= |t.pushed| && !t.pushed[i].Connected? && |Numbered(t.pushed)| < 0x1_0000_0000
    ensures var t := Trace(p, events).q; OnWire(Wire(p, events), t.pushed[i].seqNo) <==> t.fates[i]
  {
    WireIsTaken(p, events);
    GapsAreEvictions(p.c, AllActs(p, events), i);
  }

  lemma {:induction false} WireSnoc(p: Setup, events: seq<Event>, e: Event)
    ensures Wire(p, events + [e]) == Wire(p, events) + WireOf(After(p, events), e)
    ensures After(p, events + [e]) == Next(After(p, events), e)
  {
    var all := events + [e];
    assert all[..|all| - 1] == events;
  }

  // ------------------------------------------------------------------------------------------
  // What never changes
  // ------------------------------------------------------------------------------------------

  lemma {:induction false} RunKeeps(s: Session, acts: seq<Action>)
    requires Fits(s)
    ensures Run(s, acts).streamSid == s.streamSid && Run(s, acts).outbound.capacity == s.outbound.capacity
    ensures Run(s, acts).playout.capacity == s.playout.capacity
    decreases |acts|
  {
    if acts != [] {
      RunKeeps(s, acts[..|acts| - 1]);
      StepKeeps(Run(s, acts[..|acts| - 1]), acts[|acts| - 1]);
    }
  }

  lemma {:induction false} StepKeeps(s: Session, a: Action)
    requires Fits(s)
    ensures Step(s, a).streamSid == s.streamSid && Step(s, a).outbound.capacity == s.outbound.capacity
    ensures Step(s, a).playout.capacity == s.playout.capacity
  {
    StepQueue(s, a);
    StepPlayout(s, a);
  }

  lemma {:induction false} SettingsFixed(p: Setup, events: seq<Event>)
    ensures var b := After(p, events); b.stereo == p.stereo && b.halve == p.halve && b.mixing == p.mixing
    decreases |events|
  {
    if events != [] {
      SettingsFixed(p, events[..|events| - 1]);
      NextSettings(After(p, events[..|events| - 1]), events[|events| - 1]);
    }
  }

  predicate SameSettings(b: Bridge, r: Bridge) {
    r.stereo == b.stereo && r.halve == b.halve && r.mixing == b.mixing
  }

  lemma {:induction false} NextSettings(b: Bridge, e: Event)
    requires Fits(b.session)
    ensures SameSettings(b, Next(b, e))
  {
    if !Absent(b, e) {
      match e {
        case ReadCallback(pcm, locked, late) => assert SameSettings(b, Captured(b, pcm, locked, late));
        case WriteCallback(frame, locked, late, nowNs) =>
          assert SameSettings(b, Spoken(b, |frame|, locked, late, nowNs));
        case Text(json, local, late, nowNs, budget) =>
          assert SameSettings(b, Told(b, json, local, late, nowNs, budget));
        case WorkerFlush(budget) => assert SameSettings(b, Flushed(b, budget));
        case Reconnect(budget) => assert SameSettings(b, Reconnected(b, budget));
        case Pause(on, late) => assert SameSettings(b, Paused(b, on, late));
        case FinishStop(budget) => assert SameSettings(b, Finished(b, budget));
        case _ =>
      }
    }
  }

  /** The stream's name and the sizes of its queue and its playout stay as they were at the start. */
  lemma {:induction false} AlwaysNamed(p: Setup, events: seq<Event>)
    ensures After(p, events).session.streamSid == P.Truncate(p.c.streamSid, 64)
    ensures After(p, events).session.outbound.capacity == Opening(p.c).outbound.capacity
    ensures After(p, events).session.outbound.capacity == if p.c.queueCap == 0 then 64 else p.c.queueCap
    ensures After(p, events).session.playout.capacity == if p.c.playoutCap == 0 then 64000 else p.c.playoutCap
  {
    BridgeRunIsSessionRun(p, events);
    RunKeeps(Opening(p.c), AllActs(p, events));
    OpeningSizes(p.c);
  }

  lemma {:induction false} OpeningSizes(c: Config)
    ensures Opening(c).outbound.capacity == if c.queueCap == 0 then 64 else c.queueCap
    ensures Opening(c).playout.capacity == if c.playoutCap == 0 then 64000 else c.playoutCap
    ensures Opening(c).streamSid == P.Truncate(c.streamSid, 64)
  {}

  // ------------------------------------------------------------------------------------------
  // What a flush adds to the histories
  // ------------------------------------------------------------------------------------------

  /** Only the first harvest of a flush finds completed marks: the flush queues what that one acknowledges, and does to
      the playout what that one does. */
  lemma {:induction false} FlushHistory(w: World, budget: nat)
    requires Sound(w)
    ensures var r := WorldRun(w, FlushActs(w.s, budget));
            && r.q.pushed == w.q.pushed + Emitted(w.s, HarvestMarks)
            && r.p == T.Step(w.p, T.HarvestOp(8))
    decreases budget
  {
    var h := Harvested(w.s);
    HarvestHistory(w);
    if h.outbound.items != [] && budget > 0 {
      var next: nat := budget - 1;
      var turn := [HarvestMarks, SendHead];
      var w2 := WorldRun(w, turn);
      TurnTakes(w);
      TurnHistory(w);
      FlushOnward(w.s, h, w2.s, budget, next);
      FlushHistory(w2, next);
      WorldAppend(w, turn, FlushActs(w2.s, next));
      NothingMoreToHarvest(w2.s, w2.p);
      assert w2.q.pushed + [] == w2.q.pushed;
    } else {
      FlushEnd(w.s, h, budget);
    }
  }

  lemma {:induction false} HarvestHistory(w: World)
    requires Sound(w)
    ensures var r := WorldRun(w, [HarvestMarks]);
            && r == WorldStep(w, HarvestMarks)
            && r.q.pushed == w.q.pushed + Emitted(w.s, HarvestMarks)
            && r.p == T.Step(w.p, T.HarvestOp(8))
  {
    HarvestTakesNothing(w);
    StepHistory(w, HarvestMarks);
    StepAudio(w, HarvestMarks);
  }

  lemma {:induction false} TurnHistory(w: World)
    requires Sound(w)
    ensures var r := WorldRun(w, [HarvestMarks, SendHead]);
            && r.q.pushed == w.q.pushed + Emitted(w.s, HarvestMarks)
            && r.p == T.Step(w.p, T.HarvestOp(8))
            && P.Done(r.s.playout.marks) == []
  {
    var w1 := WorldStep(w, HarvestMarks);
    HarvestHistory(w);
    StepSound(w, HarvestMarks);
    WorldSnoc(w, [HarvestMarks], SendHead);
    assert [HarvestMarks] + [SendHead] == [HarvestMarks, SendHead];
    SendHistory(w1);
    HarvestBacklog(w.s);
  }

  lemma {:induction false} SendHistory(w: World)
    requires Sound(w)
    ensures var r := WorldStep(w, SendHead);
            r.q.pushed == w.q.pushed && r.p == w.p && r.s.playout == w.s.playout
  {
    StepHistory(w, SendHead);
    StepAudio(w, SendHead);
    assert w.q.pushed + [] == w.q.pushed;
  }

  /** Where no mark is completed a harvest does nothing. */
  lemma {:induction false} NothingMoreToHarvest(s: Session, c: T.Played)
    requires Fits(s) && P.Fits(c.p) && s.playout == c.p && P.Done(c.p.marks) == []
    ensures Emitted(s, HarvestMarks) == [] && T.Step(c, T.HarvestOp(8)) == c
  {
    AllPending(c.p.marks);
    NothingToStep(c);
  }

  lemma {:induction false} NothingToStep(c: T.Played)
    requires P.Fits(c.p) && P.Done(c.p.marks) == [] && P.Pending(c.p.marks) == c.p.marks
    ensures T.Step(c, T.HarvestOp(8)) == c
  {
    assert c.reported + [] == c.reported && c.accepted + [] == c.accepted;
    assert c.heard + [] == c.heard && c.marked + [] == c.marked;
  }

  // ------------------------------------------------------------------------------------------
  // What an event adds to the histories
  // ------------------------------------------------------------------------------------------

  /** What the actions before the flush queue and do to the playout. Only a write callback has a second action, which
      does neither. */
  function MessagesBefore(b: Bridge, e: Event): (msgs: seq<Message>) {
    if Before(b, e) == [] then [] else Emitted(b.session, Before(b, e)[0])
  }

  function OpsBefore(b: Bridge, e: Event): (ops: seq<T.Op>)
    ensures |ops| <= 1
  {
    if Before(b, e) == [] then [] else PlayoutOps(b.session, Before(b, e)[0])
  }

  /** The session a flush finds. */
  function Midway(b: Bridge, e: Event): (s: Session)
    requires Fits(b.session)
    ensures Fits(s)
  {
    Run(b.session, Before(b, e))
  }

  function Messages(b: Bridge, e: Event): (msgs: seq<Message>)
    requires Fits(b.session)
  {
    MessagesBefore(b, e) + (if FlushOf(b, e).Some? then Emitted(Midway(b, e), HarvestMarks) else [])
  }

  function Ops(b: Bridge, e: Event): (ops: seq<T.Op>) {
    OpsBefore(b, e) + (if FlushOf(b, e).Some? then [T.HarvestOp(8)] else [])
  }

  lemma {:induction false} OneAct(w: World, a: Action)
    requires WellFormed(w)
    ensures WorldRun(w, [a]) == WorldStep(w, a)
  {
    WorldSnoc(w, [], a);
    assert [] + [a] == [a];
  }

  lemma {:induction false} OneOp(c: T.Played, op: T.Op)
    requires P.Fits(c.p)
    ensures T.Run(c, [op]) == T.Step(c, op)
  {
    assert [op][..0] == [];
  }

  lemma {:induction false} OneActHistory(w: World, a: Action)
    requires Sound(w)
    ensures var r := WorldRun(w, [a]);
            && Sound(r) && r.q.pushed == w.q.pushed + Emitted(w.s, a)
            && r.p == T.Run(w.p, PlayoutOps(w.s, a))
  {
    OneAct(w, a);
    StepSound(w, a);
    StepHistory(w, a);
    StepAudio(w, a);
    var ops := PlayoutOps(w.s, a);
    if ops != [] {
      OneOp(w.p, ops[0]);
      assert ops == [ops[0]];
    }
  }

  lemma {:induction false} NoteHistory(w: World, a: Action)
    requires Sound(w) && a.NoteWrite?
    ensures var r := WorldStep(w, a); Sound(r) && r.q.pushed == w.q.pushed && r.p == w.p
  {
    StepSound(w, a);
    StepHistory(w, a);
    StepAudio(w, a);
    assert w.q.pushed + [] == w.q.pushed;
  }

  lemma {:induction false} BeforeHistory(w: World, b: Bridge, e: Event)
    requires Sound(w) && w.s == b.session
    ensures var r := WorldRun(w, Before(b, e));
            && Sound(r) && r.q.pushed == w.q.pushed + MessagesBefore(b, e)
            && r.p == T.Run(w.p, OpsBefore(b, e))
  {
    BeforeShape(b, e);
    ActsHistory(w, Before(b, e));
  }

  /** At most one action that matters. */
  lemma {:induction false} ActsHistory(w: World, acts: seq<Action>)
    requires Sound(w) && |acts| <= 2 && (|acts| == 2 ==> acts[1].NoteWrite?)
    ensures ActsAdd(w, acts, WorldRun(w, acts))
  {
    if acts == [] {
      NoActHistory(w);
    } else if |acts| == 1 {
      SingleActHistory(w, acts[0]);
      assert acts == [acts[0]];
    } else {
      NotedHistory(w, acts[0], acts[1]);
      assert acts == [acts[0]] + [acts[1]];
    }
  }

  lemma {:induction false} NoActHistory(w: World)
    requires Sound(w)
    ensures ActsAdd(w, [], WorldRun(w, []))
  {
    assert w.q.pushed + [] == w.q.pushed;
  }

  lemma {:induction false} SingleActHistory(w: World, a: Action)
    requires Sound(w)
    ensures ActsAdd(w, [a], WorldRun(w, [a]))
  {
    OneActHistory(w, a);
  }

  ghost predicate ActsAdd(w: World, acts: seq<Action>, r: World)
    requires WellFormed(w)
  {
    && Sound(r) && r.q.pushed == w.q.pushed + (if acts == [] then [] else Emitted(w.s, acts[0]))
    && r.p == T.Run(w.p, if acts == [] then [] else PlayoutOps(w.s, acts[0]))
  }

  lemma {:induction false} NotedHistory(w: World, a: Action, note: Action)
    requires Sound(w) && note.NoteWrite?
    ensures ActsAdd(w, [a] + [note], WorldRun(w, [a] + [note]))
  {
    OneActHistory(w, a);
    NoteHistory(WorldRun(w, [a]), note);
    WorldSnoc(w, [a], note);
  }

  lemma {:induction false} FlushAdds(h: seq<Message>, c: T.Played, b: Bridge, e: Event, d: T.Played)
    requires Fits(b.session) && P.Fits(c.p) && FlushOf(b, e).Some? && d == T.Run(c, OpsBefore(b, e))
    ensures h + MessagesBefore(b, e) + Emitted(Midway(b, e), HarvestMarks) == h + Messages(b, e)
    ensures T.Step(d, T.HarvestOp(8)) == T.Run(c, Ops(b, e))
  {
    Associate(h, MessagesBefore(b, e), Emitted(Midway(b, e), HarvestMarks));
    OneOp(d, T.HarvestOp(8));
    T.RunAppend(c, OpsBefore(b, e), [T.HarvestOp(8)]);
  }

  /** What one event queues, and what it does to the playout. */
  lemma {:induction false} EventHistory(w: World, b: Bridge, e: Event)
    requires Sound(w) && w.s == b.session
    ensures var r := WorldRun(w, Acts(b, e));
            r.q.pushed == w.q.pushed + Messages(b, e) && r.p == T.Run(w.p, Ops(b, e))
  {
    BeforeHistory(w, b, e);
    var v := WorldRun(w, Before(b, e));
    StateOfWorld(w, Before(b, e));
    if FlushOf(b, e).Some? {
      var budget := FlushOf(b, e).value;
      WorldAppend(w, Before(b, e), FlushActs(v.s, budget));
      FlushActsAre(b, e, v.s, budget);
      FlushHistory(v, budget);
      FlushAdds(w.q.pushed, w.p, b, e, v.p);
    } else {
      NoFlushActs(b, e);
      assert MessagesBefore(b, e) + [] == MessagesBefore(b, e) && OpsBefore(b, e) + [] == OpsBefore(b, e);
    }
  }

  /** The same along a run. */
  lemma {:induction false} HistorySnoc(p: Setup, events: seq<Event>, e: Event)
    ensures var w := Trace(p, events); var r := Trace(p, events + [e]); var b := After(p, events);
            r.q.pushed == w.q.pushed + Messages(b, e) && r.p == T.Run(w.p, Ops(b, e))
  {
    BridgeRunIsSessionRun(p, events);
    TraceSnoc(p, events, e);
    EventHistory(Trace(p, events), After(p, events), e);
  }

  lemma {:induction false} HistoryStart(p: Setup)
    ensures Trace(p, []).q.pushed == FirstMessages(p.c)
    ensures Trace(p, []).p == T.Begin(Opening(p.c).playout.capacity)
  {
    BeginSound(p.c);
    var w := WorldBegin(p.c);
    FlushHistory(w, p.budget);
    NothingMoreToHarvest(w.s, w.p);
    assert w.q.pushed + [] == w.q.pushed;
  }

  // ------------------------------------------------------------------------------------------
  // What an event sends
  // ------------------------------------------------------------------------------------------

  lemma {:induction false} MidwayQueue(b: Bridge, e: Event)
    requires Fits(b.session)
    ensures Midway(b, e).outbound == Q.PushAll(b.session.outbound, MessagesBefore(b, e))
  {
    BeforeShape(b, e);
    BeforeSendsNothing(b, e);
    ActsQueue(b.session, Before(b, e));
  }

  lemma {:induction false} ActsQueue(s: Session, acts: seq<Action>)
    requires Fits(s) && |acts| <= 2 && (|acts| == 2 ==> acts[1].NoteWrite?)
    requires forall i :: 0 <= i < |acts| ==> !acts[i].SendHead?
    ensures Run(s, acts).outbound == Q.PushAll(s.outbound, if acts == [] then [] else Emitted(s, acts[0]))
  {
    if |acts| == 1 {
      RunOne(s, acts[0]);
      StepQueue(s, acts[0]);
      assert acts == [acts[0]];
    } else if |acts| == 2 {
      RunOne(s, acts[0]);
      StepQueue(s, acts[0]);
      RunSnoc(s, [acts[0]], acts[1]);
      assert acts == [acts[0]] + [acts[1]];
    }
  }

  /** The wire of one event in closed form: the messages that wait and those the event queues, without the oldest that
      do not fit, go out from the front as far as the socket takes them; the rest stays queued. */
  lemma {:induction false} EventWire(b: Bridge, e: Event)
    requires Fits(b.session) && FlushOf(b, e).Some?
    ensures var q := b.session.outbound; var queue := Q.Last(q.items + Messages(b, e), q.capacity);
            && WireOf(b, e) == P.First(queue, FlushOf(b, e).value)
            && Next(b, e).session.outbound.items == queue[|WireOf(b, e)|..]
  {
    var q, budget, s := b.session.outbound, FlushOf(b, e).value, Midway(b, e);
    MidwayQueue(b, e);
    HarvestedQueue(s, q, MessagesBefore(b, e));
    FlushSends(s, budget);
    FlushActsAre(b, e, s, budget);
    BeforeIsRun(b, e);
  }

  lemma {:induction false} HarvestedQueue(s: Session, q: Q.Queue<Message>, msgs: seq<Message>)
    requires Fits(s) && Q.Fits(q) && s.outbound == Q.PushAll(q, msgs)
    ensures Harvested(s).outbound.items == Q.Last(q.items + (msgs + Emitted(s, HarvestMarks)), q.capacity)
  {
    Q.PushAllAppend(q, msgs, Emitted(s, HarvestMarks));
    Q.PushAllKeepsLast(q, msgs + Emitted(s, HarvestMarks));
  }

  // ------------------------------------------------------------------------------------------
  // Ends
  // ------------------------------------------------------------------------------------------

  /** No socket, and no worker to bring one up. */
  predicate CutOff(b: Bridge) {
    !b.hasSocket && !b.working
  }

  lemma {:induction false} CutOffStep(b: Bridge, e: Event)
    requires Fits(b.session) && CutOff(b)
    ensures CutOff(Next(b, e)) && FlushOf(b, e).None?
  {}

  /** From `t` to `u` messages were queued and evicted, and none was taken. */
  ghost predicate OnlyEvicts(t: Q.Traced<Message>, u: Q.Traced<Message>) {
    && t.pushed <= u.pushed && u.taken == t.taken && t.fates <= u.fates
    && (forall i :: |t.fates| <= i < |u.fates| ==> !u.fates[i])
  }

  lemma OnlyEvictsOnward(t: Q.Traced<Message>, u: Q.Traced<Message>, v: Q.Traced<Message>)
    requires OnlyEvicts(t, u) && OnlyEvicts(u, v)
    ensures OnlyEvicts(t, v)
  {}

  lemma {:induction false} PushOnlyEvicts(t: Q.Traced<Message>, msgs: seq<Message>)
    requires Q.Fits(t.q)
    ensures OnlyEvicts(t, Q.Run(t, Q.Pushes(msgs)))
    decreases |msgs|
  {
    if msgs != [] {
      var n := |msgs| - 1;
      PushOnlyEvicts(t, msgs[..n]);
      assert Q.Pushes(msgs)[..n] == Q.Pushes(msgs[..n]);
      var u := Q.Run(t, Q.Pushes(msgs[..n]));
      OnlyEvictsOnward(t, u, Q.Step(u, Q.PushOp(msgs[n])));
    }
  }

  lemma {:induction false} NoSendOnlyEvicts(w: World, acts: seq<Action>)
    requires Sound(w) && forall i :: 0 <= i < |acts| ==> !acts[i].SendHead?
    ensures OnlyEvicts(w.q, WorldRun(w, acts).q)
    decreases |acts|
  {
    if acts != [] {
      var init, a := acts[..|acts| - 1], acts[|acts| - 1];
      NoSendOnlyEvicts(w, init);
      NoSendNoTake(w, init);
      var v := WorldRun(w, init);
      PushOnlyEvicts(v.q, Emitted(v.s, a));
      OnlyEvictsOnward(w.q, v.q, WorldStep(v, a).q);
    }
  }

  /** With neither socket nor worker the wire is final: whatever is queued from then on stays queued or is evicted. */
  lemma {:induction false} CutOffIsFinal(p: Setup, before: seq<Event>, after: seq<Event>)
    requires CutOff(After(p, before))
    ensures CutOff(After(p, before + after)) && Wire(p, before + after) == Wire(p, before)
    ensures OnlyEvicts(Trace(p, before).q, Trace(p, before + after).q)
    decreases |after|
  {
    if after == [] {
      assert before + after == before;
    } else {
      var init, e := after[..|after| - 1], after[|after| - 1];
      CutOffIsFinal(p, before, init);
      CutOffEvent(p, before + init, e);
      OnlyEvictsOnward(Trace(p, before).q, Trace(p, before + init).q, Trace(p, before + init + [e]).q);
      SplitLast(before, after);
    }
  }

  lemma {:induction false} CutOffEvent(p: Setup, events: seq<Event>, e: Event)
    requires CutOff(After(p, events))
    ensures CutOff(After(p, events + [e])) && Wire(p, events + [e]) == Wire(p, events)
    ensures OnlyEvicts(Trace(p, events).q, Trace(p, events + [e]).q)
  {
    WireSnoc(p, events, e);
    BridgeRunIsSessionRun(p, events);
    TraceSnoc(p, events, e);
    CutOffActs(Trace(p, events), After(p, events), e);
    assert Wire(p, events) + [] == Wire(p, events);
  }

  lemma {:induction false} CutOffActs(w: World, b: Bridge, e: Event)
    requires Sound(w) && Fits(b.session) && CutOff(b)
    ensures CutOff(Next(b, e)) && WireOf(b, e) == []
    ensures OnlyEvicts(w.q, WorldRun(w, Acts(b, e)).q)
  {
    CutOffStep(b, e);
    NoFlushActs(b, e);
    BeforeSendsNothing(b, e);
    NoSendOnlyEvicts(w, Before(b, e));
  }

  lemma {:induction false} NoFlushActs(b: Bridge, e: Event)
    requires Fits(b.session) && FlushOf(b, e).None?
    ensures Acts(b, e) == Before(b, e) && WireOf(b, e) == []
  {}

  lemma {:induction false} BeforeSendsNothing(b: Bridge, e: Event)
    ensures forall i :: 0 <= i < |Before(b, e)| ==> !Before(b, e)[i].SendHead? && !Before(b, e)[i].HarvestMarks?
  {}

  lemma {:induction false} TraceSnoc(p: Setup, events: seq<Event>, e: Event)
    ensures Trace(p, events + [e]) == WorldRun(Trace(p, events), Acts(After(p, events), e))
  {
    var all := events + [e];
    assert all[..|all| - 1] == events;
    TraceStep(p, all);
  }

  /** One reconnect attempt that closed the old socket and got no new one is the end of the wire, whatever happens
      afterwards: callbacks, commands, stop. Everything queued from then on stays queued or is evicted. */
  lemma {:induction false} FailedReconnectIsFinal(p: Setup, before: seq<Event>, after: seq<Event>)
    requires After(p, before).working
    ensures Wire(p, before + [ReconnectFailed(true)] + after) == Wire(p, before)
    ensures OnlyEvicts(Trace(p, before).q, Trace(p, before + [ReconnectFailed(true)] + after).q)
  {
    var e := ReconnectFailed(true);
    GivingUp(p, before, e);
    CutOffIsFinal(p, before + [e], after);
  }

  lemma {:induction false} GivingUp(p: Setup, before: seq<Event>, e: Event)
    requires After(p, before).working && e == ReconnectFailed(true)
    ensures CutOff(After(p, before + [e])) && Wire(p, before + [e]) == Wire(p, before)
    ensures Trace(p, before + [e]).q == Trace(p, before).q
  {
    WireSnoc(p, before, e);
    TraceSnoc(p, before, e);
    GivesUp(After(p, before), e);
    assert Wire(p, before) + [] == Wire(p, before);
  }

  lemma {:induction false} GivesUp(b: Bridge, e: Event)
    requires Fits(b.session) && b.working && e == ReconnectFailed(true)
    ensures CutOff(Next(b, e)) && Acts(b, e) == [] && WireOf(b, e) == []
  {}

  /** Once a stop has been carried out, neither the wire nor the history of queued messages changes any more. */
  lemma {:induction false} StopIsFinal(p: Setup, before: seq<Event>, budget: nat, after: seq<Event>)
    requires After(p, before).cleaning
    ensures var stopped := before + [FinishStop(budget)];
            && Wire(p, stopped + after) == Wire(p, stopped)
            && Trace(p, stopped + after).q.pushed == Trace(p, stopped).q.pushed
  {
    var e := FinishStop(budget);
    AlwaysInStep(p, before);
    WireSnoc(p, before, e);
    StopsForGood(After(p, before), e);
    CutOffIsFinal(p, before + [e], after);
    StoppedForGood(p, before + [e], after);
  }

  lemma {:induction false} StopsForGood(b: Bridge, e: Event)
    requires InStep(b) && b.cleaning && e.FinishStop?
    ensures CutOff(Next(b, e)) && Next(b, e).session.state.Stopped?
  {
    NextState(b, e);
    FinishedParts(b, e.budget);
  }

  lemma {:induction false} StoppedForGood(p: Setup, before: seq<Event>, after: seq<Event>)
    requires CutOff(After(p, before)) && After(p, before).session.state.Stopped?
    ensures After(p, before + after).session.state.Stopped?
    ensures Trace(p, before + after).q.pushed == Trace(p, before).q.pushed
    decreases |after|
  {
    if after == [] {
      assert before + after == before;
    } else {
      var init, e := after[..|after| - 1], after[|after| - 1];
      StoppedForGood(p, before, init);
      CutOffIsFinal(p, before, init);
      StoppedEvent(p, before + init, e);
      SplitLast(before, after);
    }
  }

  lemma {:induction false} StoppedEvent(p: Setup, events: seq<Event>, e: Event)
    requires CutOff(After(p, events)) && After(p, events).session.state.Stopped?
    ensures After(p, events + [e]).session.state.Stopped?
    ensures Trace(p, events + [e]).q.pushed == Trace(p, events).q.pushed
  {
    AlwaysInStep(p, events);
    WireSnoc(p, events, e);
    BridgeRunIsSessionRun(p, events);
    TraceSnoc(p, events, e);
    StoppedActs(Trace(p, events), After(p, events), e);
  }

  lemma {:induction false} StoppedActs(w: World, b: Bridge, e: Event)
    requires Sound(w) && InStep(b) && CutOff(b) && w.s == b.session && w.s.state.Stopped?
    ensures Next(b, e).session.state.Stopped? && WorldRun(w, Acts(b, e)).q.pushed == w.q.pushed
  {
    CutOffStep(b, e);
    NoFlushActs(b, e);
    BeforeSendsNothing(b, e);
    StoppedQueuesNothing(w, Before(b, e));
    NextState(b, e);
  }

  lemma {:induction false} StoppedQueuesNothing(w: World, acts: seq<Action>)
    requires Sound(w) && w.s.state.Stopped?
    requires forall i :: 0 <= i < |acts| ==> !acts[i].HarvestMarks?
    ensures var r := WorldRun(w, acts); Sound(r) && r.s.state.Stopped? && r.q.pushed == w.q.pushed
    decreases |acts|
  {
    if acts != [] {
      var init, a := acts[..|acts| - 1], acts[|acts| - 1];
      StoppedQueuesNothing(w, init);
      var v := WorldRun(w, init);
      StepSound(v, a);
      StepHistory(v, a);
      StoppedEmitsNothing(v.s, a);
      assert v.q.pushed + [] == v.q.pushed;
    }
  }

  lemma {:induction false} StoppedEmitsNothing(s: Session, a: Action)
    requires Fits(s) && s.state.Stopped? && !a.HarvestMarks?
    ensures Emitted(s, a) == [] && Step(s, a).state.Stopped?
  {}
}
