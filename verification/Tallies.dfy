/** The session's counters and names over every run, against what happened in it. */
module Tallies {
  import opened Sequences
  import opened Protocol
  import opened Session
  import opened SessionRuns
  import P = Playout

  // ------------------------------------------------------------------------------------------
  // Clear latency
  // ------------------------------------------------------------------------------------------

  /** The session runs until it is stopped. */
  function Live(acts: seq<Action>): (b: bool) {
    acts == [] || (Live(acts[..|acts| - 1]) && !acts[|acts| - 1].StopStream?)
  }

  /** The time of the clear that has not been sampled yet. */
  function Pending(acts: seq<Action>): (start: Option<nat>) {
    if acts == [] then None
    else
      var init, a := acts[..|acts| - 1], acts[|acts| - 1];
      if a.PeerCommand? && a.c.BargeIn? && Live(init) then Some(a.nowNs)
      else if a.NoteWrite? && a.samplesWritten == 0 then None
      else Pending(init)
  }

  /** Microseconds on a clock of 64 bits; zero stands for a clock that could not be read. */
  function Micros(start: nat, now: nat): (us: nat) {
    if start == 0 then 0
    else if start <= now then (now - start) % 0x1_0000_0000_0000_0000 / 1000
    else (0x1_0000_0000_0000_0000 - 1 - (start - now - 1) % 0x1_0000_0000_0000_0000) / 1000
  }

  /** One sample for the first empty write after a clear. */
  function Samples(acts: seq<Action>): (us: seq<nat>) {
    if acts == [] then []
    else
      var init, a := acts[..|acts| - 1], acts[|acts| - 1];
      Samples(init) + if a.NoteWrite? && a.samplesWritten == 0 && Pending(init).Some?
                      then [Micros(Pending(init).value, a.nowNs)] else []
  }

  predicate Falls(us: nat, k: nat) {
    match k
    case 0 => us < 1000
    case 1 => 1000 <= us < 2000
    case 2 => 2000 <= us < 5000
    case 3 => 5000 <= us < 10000
    case 4 => 10000 <= us < 20000
    case 5 => 20000 <= us < 50000
    case 6 => 50000 <= us < 100000
    case _ => 100000 <= us
  }

  function Count(us: seq<nat>, k: nat): (n: nat) {
    if us == [] then 0 else Count(us[..|us| - 1], k) + if Falls(us[|us| - 1], k) then 1 else 0
  }

  function Max(us: seq<nat>): (m: nat) {
    if us == [] then 0
    else
      var m := Max(us[..|us| - 1]);
      if us[|us| - 1] > m then us[|us| - 1] else m
  }

  ghost predicate Tallied(l: Latency, us: seq<nat>) {
    && l.samples == |us| && l.sum == Sum(us) && l.max == Max(us)
    && l.last == (if us == [] then 0 else us[|us| - 1])
    && |l.buckets| == 8 && (forall k :: 0 <= k < 8 ==> l.buckets[k] == Count(us, k))
  }

  lemma MicrosIs(start: nat, now: nat)
    ensures ElapsedUs(start, now) == Micros(start, now)
  {
    if start > now {
      NegativeModulo(start - now);
    }
  }

  lemma NegativeModulo(d: int)
    requires d > 0
    ensures (0 - d) % 0x1_0000_0000_0000_0000 == 0x1_0000_0000_0000_0000 - 1 - (d - 1) % 0x1_0000_0000_0000_0000
  {}

  lemma {:induction false} BucketIs(us: nat, k: nat)
    requires k < 8
    ensures Falls(us, k) <==> k == Bucket(us)
  {}

  lemma {:induction false} RecordTallied(l: Latency, us: seq<nat>, x: nat)
    requires Tallied(l, us)
    ensures Tallied(Record(l, x), us + [x])
  {
    var all := us + [x];
    assert all[..|all| - 1] == us;
    forall k | 0 <= k < 8 ensures Record(l, x).buckets[k] == Count(all, k) {
      BucketIs(x, k);
    }
  }

  ghost predicate Clocked(s: Session, acts: seq<Action>) {
    && (s.state.Running? <==> Live(acts)) && (s.state.Running? || s.state.Stopped?)
    && s.clearArmed == Pending(acts).Some? && (s.clearArmed ==> s.clearStartNs == Pending(acts).value)
  }

  lemma {:induction false} StepClocked(s: Session, acts: seq<Action>, a: Action)
    requires Fits(s) && Clocked(s, acts)
    ensures Clocked(Step(s, a), acts + [a])
  {
    assert (acts + [a])[..|acts|] == acts;
    StepPhase(s, a, if s.state.Running? then SessionRuns.Live else Ended);
  }

  lemma {:induction false} StepTallied(s: Session, acts: seq<Action>, a: Action)
    requires Fits(s) && Clocked(s, acts) && Tallied(s.latency, Samples(acts))
    ensures Tallied(Step(s, a).latency, Samples(acts + [a]))
  {
    assert (acts + [a])[..|acts|] == acts;
    if a.NoteWrite? && a.samplesWritten == 0 && s.clearArmed {
      MicrosIs(s.clearStartNs, a.nowNs);
      RecordTallied(s.latency, Samples(acts), ElapsedUs(s.clearStartNs, a.nowNs));
    } else {
      assert Samples(acts) + [] == Samples(acts);
    }
  }

  /** Over every run the latency fields are those of the list of samples: one for the first empty write behind a clear,
      the time between the two; count, sum, maximum, last, and a histogram over eight ranges. */
  lemma {:induction false} LatencyTallied(c: Config, acts: seq<Action>)
    ensures Clocked(Run(Opening(c), acts), acts) && Tallied(Run(Opening(c), acts).latency, Samples(acts))
    decreases |acts|
  {
    if acts != [] {
      var init, a := acts[..|acts| - 1], acts[|acts| - 1];
      LatencyTallied(c, init);
      SplitLast([], acts);
      StepClocked(Run(Opening(c), init), init, a);
      StepTallied(Run(Opening(c), init), init, a);
    }
  }

  /** The average reported is the sum over the count, rounded down. */
  lemma AverageIs(l: Latency)
    requires l.samples > 0
    ensures AverageUs(l) * l.samples <= l.sum < (AverageUs(l) + 1) * l.samples
  {
    var q, r := l.sum / l.samples, l.sum % l.samples;
    assert l.sum == q * l.samples + r;
    assert (q + 1) * l.samples == q * l.samples + l.samples;
  }

  // ------------------------------------------------------------------------------------------
  // Clears and media
  // ------------------------------------------------------------------------------------------

  function BargeIns(acts: seq<Action>): (n: nat) {
    if acts == [] then 0
    else
      var init, a := acts[..|acts| - 1], acts[|acts| - 1];
      BargeIns(init) + if a.PeerCommand? && a.c.BargeIn? && Live(init) then 1 else 0
  }

  /** Media texts whose audio fitted. */
  function MediaTexts(c: Config, acts: seq<Action>): (n: nat) {
    if acts == [] then 0
    else
      var init, a := acts[..|acts| - 1], acts[|acts| - 1];
      var p := Run(Opening(c), init).playout;
      MediaTexts(c, init) +
      if a.PeerCommand? && a.c.Play? && Live(init)
         && (a.c.payload == [] || |p.data| + |a.c.payload| <= p.capacity) then 1 else 0
  }

  lemma {:induction false} StepCounts(s: Session, a: Action)
    requires Fits(s)
    ensures Step(s, a).clearEvents
         == s.clearEvents + if a.PeerCommand? && a.c.BargeIn? && s.state.Running? then 1 else 0
    ensures Step(s, a).downlinkFrames
         == s.downlinkFrames
            + if a.PeerCommand? && a.c.Play? && s.state.Running?
                 && (a.c.payload == [] || |s.playout.data| + |a.c.payload| <= s.playout.capacity) then 1 else 0
  {}

  /** Over every run clears and accepted media texts are counted one by one. */
  lemma {:induction false} EventsCounted(c: Config, acts: seq<Action>)
    ensures Run(Opening(c), acts).clearEvents == BargeIns(acts)
    ensures Run(Opening(c), acts).downlinkFrames == MediaTexts(c, acts)
    decreases |acts|
  {
    if acts != [] {
      var init, a := acts[..|acts| - 1], acts[|acts| - 1];
      EventsCounted(c, init);
      LatencyTallied(c, init);
      StepCounts(Run(Opening(c), init), a);
    }
  }

  // ------------------------------------------------------------------------------------------
  // Names
  // ------------------------------------------------------------------------------------------

  /** The names a stream is started with, cut to 63 bytes; the call is named like the stream unless it has a name. */
  function StreamOf(c: Config): (s: string) { P.Truncate(c.streamSid, 64) }

  function CallOf(c: Config): (s: string) {
    P.Truncate(if c.callSid.Some? then c.callSid.value else c.streamSid, 64)
  }

  function AccountOf(c: Config): (s: string) {
    P.Truncate(if c.accountSid.Some? then c.accountSid.value else "AC00000000000000000000000000000000", 64)
  }

  predicate Named(c: Config, m: Message) {
    match m
    case Connected => true
    case Start(_, sid, account, call, custom) =>
      sid == StreamOf(c) && account == AccountOf(c) && call == CallOf(c) && custom == c.custom
    case Media(_, sid, _, _, _) => sid == StreamOf(c)
    case MarkAck(_, sid, _) => sid == StreamOf(c)
    case Stop(_, sid, account, call) => sid == StreamOf(c) && account == AccountOf(c) && call == CallOf(c)
  }

  predicate SessionNamed(c: Config, s: Session) {
    s.streamSid == StreamOf(c) && s.accountSid == AccountOf(c) && s.callSid == CallOf(c) && s.custom == c.custom
  }

  predicate AllNamed(c: Config, msgs: seq<Message>) {
    forall i :: 0 <= i < |msgs| ==> Named(c, msgs[i])
  }

  lemma {:induction false} StepNamed(c: Config, s: Session, a: Action)
    requires Fits(s) && SessionNamed(c, s)
    ensures SessionNamed(c, Step(s, a))
  {}

  lemma {:induction false} EmittedNamed(c: Config, s: Session, a: Action)
    requires Fits(s) && SessionNamed(c, s)
    ensures AllNamed(c, Emitted(s, a))
  {}

  /** Every message of every run carries the names of its stream, and the history opens with `connected` and the first
      `start`. */
  lemma {:induction false} HistoryNamed(c: Config, acts: seq<Action>)
    ensures var h := WorldRun(WorldBegin(c), acts).q.pushed;
            && AllNamed(c, h)
            && [Connected, Message.Start(1, StreamOf(c), AccountOf(c), CallOf(c), c.custom)] <= h
    ensures SessionNamed(c, Run(Opening(c), acts))
    decreases |acts|
  {
    if acts == [] {
      BeginSound(c);
      FirstNamed(c);
    } else {
      var init := acts[..|acts| - 1];
      HistoryNamed(c, init);
      RunSound(c, init);
      WorldNamed(c, WorldRun(WorldBegin(c), init), acts[|acts| - 1]);
    }
  }

  lemma {:induction false} WorldNamed(c: Config, w: World, a: Action)
    requires Sound(w) && SessionNamed(c, w.s) && AllNamed(c, w.q.pushed)
    ensures SessionNamed(c, WorldStep(w, a).s) && AllNamed(c, WorldStep(w, a).q.pushed)
    ensures w.q.pushed <= WorldStep(w, a).q.pushed
  {
    StepHistory(w, a);
    StepNamed(c, w.s, a);
    EmittedNamed(c, w.s, a);
  }

  lemma {:induction false} FirstNamed(c: Config)
    ensures FirstMessages(c) == [Connected, Message.Start(1, StreamOf(c), AccountOf(c), CallOf(c), c.custom)]
    ensures SessionNamed(c, Opening(c))
  {}
}
