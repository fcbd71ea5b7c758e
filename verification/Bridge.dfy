/** rtw_bridge.c: the media callbacks, the peek-send-drop flush and the session's lock-held entry points. */
module Bridge {
  import opened Sequences
  import opened Protocol
  import opened Session
  import Mulaw
  import P = Playout

  const HOLD_SIZE: nat := 320
  const INJECT_MAX: nat := 640

  // ------------------------------------------------------------------------------------------
  // Flushing
  // ------------------------------------------------------------------------------------------

  /** A flush during which the socket takes `budget` frames and refuses the next one. Each turn harvests completed
      marks and, if there is a head, sends and drops it. */
  function FlushActs(s: Session, budget: nat): (acts: seq<Action>)
    requires Fits(s)
    decreases budget
  {
    var h := Harvested(s);
    if h.outbound.items == [] || budget == 0 then [HarvestMarks]
    else [HarvestMarks, SendHead] + FlushActs(Step(h, SendHead), budget - 1)
  }

  /** Whether the flush ends with everything sent rather than with a refused frame. */
  predicate FlushDrains(s: Session, budget: nat)
    requires Fits(s)
    decreases budget
  {
    var h := Harvested(s);
    if h.outbound.items == [] then true
    else if budget == 0 then false
    else FlushDrains(Step(h, SendHead), budget - 1)
  }

  /** The messages a flush sends. */
  function FlushWire(s: Session, budget: nat): (msgs: seq<Message>)
    requires Fits(s)
    decreases budget
  {
    var h := Harvested(s);
    if h.outbound.items == [] || budget == 0 then []
    else [h.outbound.items[0]] + FlushWire(Step(h, SendHead), budget - 1)
  }

  /** The session a flush leaves. */
  function Flush(s: Session, budget: nat): (r: Session)
    requires Fits(s)
    ensures Fits(r)
    decreases budget
  {
    var h := Harvested(s);
    if h.outbound.items == [] || budget == 0 then h else Flush(Step(h, SendHead), budget - 1)
  }

  /** The recursive equations of a flush that goes on, and of one that ends. */
  lemma {:induction false} FlushOnward(s: Session, h: Session, t: Session, left: nat, next: nat)
    requires Fits(s) && h == Harvested(s) && t == Step(h, SendHead)
    requires h.outbound.items != [] && left > 0 && next == left - 1
    ensures Flush(s, left) == Flush(t, next) && FlushDrains(s, left) == FlushDrains(t, next)
    ensures FlushWire(s, left) == [h.outbound.items[0]] + FlushWire(t, next)
    ensures FlushActs(s, left) == [HarvestMarks, SendHead] + FlushActs(t, next)
  {}

  lemma {:induction false} FlushEnd(s: Session, h: Session, left: nat)
    requires Fits(s) && h == Harvested(s) && (h.outbound.items == [] || left == 0)
    ensures Flush(s, left) == h && FlushDrains(s, left) == (h.outbound.items == []) && FlushWire(s, left) == []
    ensures FlushActs(s, left) == [HarvestMarks]
  {}

  lemma {:induction false} TurnRun(s: Session)
    requires Fits(s)
    ensures Run(s, [HarvestMarks, SendHead]) == Step(Harvested(s), SendHead)
  {
    var turn := [HarvestMarks, SendHead];
    assert turn[..1] == [HarvestMarks];
    RunOne(s, HarvestMarks);
  }

  /** A flush is a run of session actions. */
  lemma {:induction false} FlushIsRun(s: Session, budget: nat)
    requires Fits(s)
    ensures Run(s, FlushActs(s, budget)) == Flush(s, budget)
    decreases budget
  {
    var h := Harvested(s);
    if h.outbound.items != [] && budget > 0 {
      var t, next := Step(h, SendHead), budget - 1;
      FlushOnward(s, h, t, budget, next);
      TurnRun(s);
      RunAppend(s, [HarvestMarks, SendHead], FlushActs(t, next));
      FlushIsRun(t, next);
    } else {
      FlushEnd(s, h, budget);
      RunOne(s, HarvestMarks);
    }
  }

  /** Queued frames plus pending marks: what a flush still has to deal with. */
  function Backlog(s: Session): (n: nat) {
    |s.outbound.items| + |s.playout.marks|
  }

  lemma {:induction false} PendingHasNoDone(marks: seq<P.Mark>)
    ensures P.Done(P.Pending(marks)) == []
    decreases |marks|
  {
    if marks != [] {
      var n := |marks| - 1;
      PendingHasNoDone(marks[..n]);
      if marks[n].bytesAfter == 0 {
        assert P.Pending(marks) == P.Pending(marks[..n]);
      } else {
        var p := P.Pending(marks[..n]) + [marks[n]];
        assert p[..|p| - 1] == P.Pending(marks[..n]);
      }
    }
  }

  lemma {:induction false} AllPending(marks: seq<P.Mark>)
    requires P.Done(marks) == []
    ensures P.Pending(marks) == marks
    decreases |marks|
  {
    if marks != [] {
      var n := |marks| - 1;
      AllPending(marks[..n]);
      Cut(marks, n);
    }
  }

  /** A harvest may queue acknowledgements and even evict the head, but each one it queues is a mark gone. */
  lemma {:induction false} HarvestBacklog(s: Session)
    requires Fits(s)
    ensures Backlog(Harvested(s)) <= Backlog(s)
    ensures P.Done(Harvested(s).playout.marks) == []
  {
    PendingHasNoDone(s.playout.marks);
    var names := P.Harvested(s.playout, HARVEST_MAX);
    assert |names| <= |P.Done(s.playout.marks)|;
  }

  /** A drained flush leaves an empty queue; a stopped one leaves the refused frame at the head, after exactly
      `budget` sends. Either way no completed mark is left waiting. */
  lemma {:induction false} FlushEnds(s: Session, budget: nat)
    requires Fits(s)
    ensures FlushDrains(s, budget) <==> Flush(s, budget).outbound.items == []
    ensures !FlushDrains(s, budget) ==> |FlushWire(s, budget)| == budget
    ensures P.Done(Flush(s, budget).playout.marks) == []
    decreases budget
  {
    HarvestBacklog(s);
    var h := Harvested(s);
    if h.outbound.items != [] && budget > 0 {
      FlushEnds(Step(h, SendHead), budget - 1);
    }
  }

  /** A flush never needs more sends than the backlog it starts from, however many acknowledgements it queues. */
  lemma {:induction false} FlushBounded(s: Session, budget: nat)
    requires Fits(s)
    ensures |FlushWire(s, budget)| + Backlog(Flush(s, budget)) <= Backlog(s)
    decreases budget
  {
    HarvestBacklog(s);
    var h := Harvested(s);
    if h.outbound.items != [] && budget > 0 {
      var t := Step(h, SendHead);
      FlushBounded(t, budget - 1);
      assert Backlog(t) == Backlog(h) - 1;
    }
  }

  /** The frame a flush was refused is the head it leaves behind, and is what one more send would have carried. */
  lemma {:induction false} RefusedStaysHead(s: Session, budget: nat, more: nat)
    requires Fits(s) && !FlushDrains(s, budget) && more == budget + 1
    ensures Flush(s, budget).outbound.items != []
    ensures FlushWire(s, more) == FlushWire(s, budget) + [Flush(s, budget).outbound.items[0]]
    decreases budget
  {
    var h := Harvested(s);
    var t := Step(h, SendHead);
    FlushOnward(s, h, t, more, budget);
    if budget > 0 {
      var next: nat := budget - 1;
      FlushOnward(s, h, t, budget, next);
      RefusedStaysHead(t, next, budget);
      Associate([h.outbound.items[0]], FlushWire(t, next), [Flush(t, next).outbound.items[0]]);
    } else {
      FlushEnd(s, h, 0);
      HeadOnly(t, h.outbound.items[0]);
    }
  }

  lemma {:induction false} HeadOnly(t: Session, m: Message)
    requires Fits(t)
    ensures [m] + FlushWire(t, 0) == [] + [m]
  {
    FlushEnd(t, Harvested(t), 0);
  }

  /** Once harvested there is nothing more to harvest. */
  lemma {:induction false} HarvestedOnce(s: Session)
    requires Fits(s) && P.Done(s.playout.marks) == []
    ensures Harvested(s) == s
  {
    AllPending(s.playout.marks);
    AckNone(s);
  }

  lemma FirstOfMore<T>(items: seq<T>, budget: nat, next: nat)
    requires items != [] && budget > 0 && next == budget - 1
    ensures P.First(items, budget) == [items[0]] + P.First(items[1..], next)
    ensures items[|P.First(items, budget)|..] == items[1..][|P.First(items[1..], next)|..]
  {}

  /** What a flush sends is the front of the queue that its first harvest leaves, as far as the socket takes it; the
      rest stays queued. */
  lemma {:induction false} FlushSends(s: Session, budget: nat)
    requires Fits(s)
    ensures FlushWire(s, budget) == P.First(Harvested(s).outbound.items, budget)
    ensures Flush(s, budget).outbound.items == Harvested(s).outbound.items[|FlushWire(s, budget)|..]
    decreases budget
  {
    var h := Harvested(s);
    if h.outbound.items != [] && budget > 0 {
      var t, next: nat := Step(h, SendHead), budget - 1;
      HarvestBacklog(s);
      HarvestedOnce(t);
      FlushSends(t, next);
      FlushOnward(s, h, t, budget, next);
      FirstOfMore(h.outbound.items, budget, next);
    } else {
      FlushEnd(s, h, budget);
    }
  }

  lemma {:induction false} FlushWithRoomDrains(s: Session, budget: nat)
    requires Fits(s) && Backlog(s) <= budget
    ensures FlushDrains(s, budget) && Flush(s, budget).outbound.items == []
  {
    FlushEnds(s, budget);
    FlushBounded(s, budget);
  }

  // ------------------------------------------------------------------------------------------
  // Uplink: from callbacks of any size to 20 ms frames
  // ------------------------------------------------------------------------------------------

  /** C's integer division by two, towards zero. */
  function Average(a: int16, b: int16): (r: int16)
    ensures a + b >= 0 ==> 2 * r <= a + b <= 2 * r + 1
    ensures a + b < 0 ==> 2 * r - 1 <= a + b <= 2 * r
    ensures a <= r <= b || b <= r <= a
  {
    var s: int := a + b;
    if s >= 0 then s / 2 else -((-s) / 2)
  }

  /** Left channel of interleaved stereo; a trailing half pair is dropped. */
  function Left(pcm: seq<int16>): (r: seq<int16>)
    ensures |r| == |pcm| / 2
  {
    if |pcm| < 2 then [] else [pcm[0]] + Left(pcm[2..])
  }

  /** 16 kHz to 8 kHz by averaging pairs; an odd last sample goes through alone. */
  function Halve(pcm: seq<int16>): (r: seq<int16>)
    ensures |r| == (|pcm| + 1) / 2
  {
    if |pcm| == 0 then []
    else if |pcm| == 1 then [pcm[0]]
    else [Average(pcm[0], pcm[1])] + Halve(pcm[2..])
  }

  /** One callback's samples brought to 8 kHz mono. Rates other than 16 kHz pass unchanged. */
  function Fold(stereo: bool, halve: bool, pcm: seq<int16>): (r: seq<int16>) {
    var mono := if stereo then Left(pcm) else pcm;
    if halve then Halve(mono) else mono
  }

  lemma {:induction false} LeftAt(pcm: seq<int16>, k: nat)
    requires k < |pcm| / 2
    ensures Left(pcm)[k] == pcm[2 * k]
    decreases k
  {
    if k > 0 {
      LeftAt(pcm[2..], k - 1);
    }
  }

  lemma {:induction false} HalveAt(pcm: seq<int16>, k: nat)
    requires k < (|pcm| + 1) / 2
    ensures Halve(pcm)[k] == if 2 * k + 1 < |pcm| then Average(pcm[2 * k], pcm[2 * k + 1]) else pcm[2 * k]
    decreases k
  {
    if k > 0 {
      HalveAt(pcm[2..], k - 1);
    }
  }

  /** Which input samples an output sample comes from: the left ones, and at 16 kHz two of them while there are two. */
  lemma {:induction false} FoldAt(stereo: bool, halve: bool, pcm: seq<int16>, k: nat)
    requires k < |Fold(stereo, halve, pcm)|
    ensures !stereo && !halve ==> Fold(stereo, halve, pcm)[k] == pcm[k]
    ensures stereo && !halve ==> Fold(stereo, halve, pcm)[k] == pcm[2 * k]
    ensures !stereo && halve ==>
              Fold(stereo, halve, pcm)[k]
                == if 2 * k + 1 < |pcm| then Average(pcm[2 * k], pcm[2 * k + 1]) else pcm[2 * k]
    ensures stereo && halve ==>
              Fold(stereo, halve, pcm)[k]
                == if 4 * k + 3 < |pcm| then Average(pcm[4 * k], pcm[4 * k + 2]) else pcm[4 * k]
  {
    if stereo && halve {
      FoldBoth(pcm, k);
    } else if stereo {
      LeftAt(pcm, k);
    } else if halve {
      HalveAt(pcm, k);
    }
  }

  lemma {:induction false} FoldBoth(pcm: seq<int16>, k: nat)
    requires k < (|pcm| / 2 + 1) / 2
    ensures Halve(Left(pcm))[k] == if 4 * k + 3 < |pcm| then Average(pcm[4 * k], pcm[4 * k + 2]) else pcm[4 * k]
  {
    HalveAt(Left(pcm), k);
    LeftAt(pcm, 2 * k);
    if 4 * k + 3 < |pcm| {
      LeftAt(pcm, 2 * k + 1);
    }
  }

  /** Samples per 8 kHz output sample. */
  function Unit(stereo: bool, halve: bool): (n: nat)
    ensures 0 < n <= 4
  {
    (if stereo then 2 else 1) * (if halve then 2 else 1)
  }

  lemma {:induction false} LeftAppend(a: seq<int16>, b: seq<int16>)
    requires |a| % 2 == 0
    ensures Left(a + b) == Left(a) + Left(b)
    decreases |a|
  {
    if a == [] {
      assert a + b == b;
    } else {
      var rest := a[2..];
      LeftAppend(rest, b);
      assert (a + b)[2..] == rest + b;
      Associate([a[0]], Left(rest), Left(b));
    }
  }

  lemma {:induction false} HalveAppend(a: seq<int16>, b: seq<int16>)
    requires |a| % 2 == 0
    ensures Halve(a + b) == Halve(a) + Halve(b)
    decreases |a|
  {
    if a == [] {
      assert a + b == b;
    } else {
      var rest := a[2..];
      HalveAppend(rest, b);
      assert (a + b)[2..] == rest + b;
      Associate([Average(a[0], a[1])], Halve(rest), Halve(b));
    }
  }

  lemma {:induction false} FoldAppend(stereo: bool, halve: bool, a: seq<int16>, b: seq<int16>)
    requires |a| % Unit(stereo, halve) == 0
    ensures Fold(stereo, halve, a + b) == Fold(stereo, halve, a) + Fold(stereo, halve, b)
  {
    if stereo {
      LeftAppend(a, b);
      if halve { HalveAppend(Left(a), Left(b)); }
    } else if halve {
      HalveAppend(a, b);
    }
  }

  /** How many samples come out of `n`. */
  function OutLen(stereo: bool, halve: bool, n: nat): (m: nat) {
    var mono := if stereo then n / 2 else n;
    if halve then (mono + 1) / 2 else mono
  }

  lemma FoldLength(stereo: bool, halve: bool, pcm: seq<int16>)
    ensures |Fold(stereo, halve, pcm)| == OutLen(stereo, halve, |pcm|)
  {}

  /** Lengths alone tell a bad cut: some continuation comes out shorter or longer. */
  lemma {:induction false} BadCut(stereo: bool, halve: bool, n: nat) returns (k: nat)
    requires n % Unit(stereo, halve) != 0
    ensures k <= 2 && OutLen(stereo, halve, n + k) != OutLen(stereo, halve, n) + OutLen(stereo, halve, k)
  {
    k := if stereo && halve && n % 4 != 1 then 2 else 1;
  }

  /** A callback may be cut after `a` without changing what is heard, whatever follows, exactly when `a` is a whole
      number of output samples. */
  lemma {:induction false} CutIsInvisibleIff(stereo: bool, halve: bool, a: seq<int16>)
    ensures (forall b :: Fold(stereo, halve, a + b) == Fold(stereo, halve, a) + Fold(stereo, halve, b))
            <==> |a| % Unit(stereo, halve) == 0
  {
    if |a| % Unit(stereo, halve) == 0 {
      forall b ensures Fold(stereo, halve, a + b) == Fold(stereo, halve, a) + Fold(stereo, halve, b) {
        FoldAppend(stereo, halve, a, b);
      }
    } else {
      var k := BadCut(stereo, halve, |a|);
      var b: seq<int16> := seq(k, _ => 0);
      FoldLength(stereo, halve, a);
      FoldLength(stereo, halve, b);
      FoldLength(stereo, halve, a + b);
      assert |Fold(stereo, halve, a + b)| != |Fold(stereo, halve, a) + Fold(stereo, halve, b)|;
    }
  }

  /** What does not fill a frame. */
  function Remainder(pcm: seq<int16>): (r: seq<int16>)
    ensures |r| == |pcm| % 160 < 160
  {
    pcm[|pcm| / 160 * 160..]
  }

  /** Cutting a stream anywhere and holding back the remainder queues the same frames. */
  lemma {:induction false} HoldIsTransparent(s: Session, a: seq<int16>, b: seq<int16>)
    requires Fits(s)
    ensures PushFrames(PushFrames(s, a), Remainder(a) + b) == PushFrames(s, a + b)
    ensures Remainder(Remainder(a) + b) == Remainder(a + b)
  {
    var k := |a| / 160 * 160;
    var whole := a[..k];
    PushFramesWhole(s, a, k);
    PushFramesAppend(s, whole, Remainder(a) + b);
    assert a + b == whole + (Remainder(a) + b);
    RemainderPast(whole, Remainder(a) + b);
  }

  lemma {:induction false} RemainderPast(whole: seq<int16>, rest: seq<int16>)
    requires |whole| % 160 == 0
    ensures Remainder(whole + rest) == Remainder(rest)
  {
    var n, k := |whole| / 160, |rest| / 160;
    assert |whole + rest| / 160 == n + k;
    assert (n + k) * 160 == |whole| + k * 160;
    assert (whole + rest)[|whole| + k * 160..] == rest[k * 160..];
  }

  // ------------------------------------------------------------------------------------------
  // Downlink: agent audio into the call's write frame
  // ------------------------------------------------------------------------------------------

  function Distance(a: int, b: int): (d: nat) {
    Abs(a - b)
  }

  /** The 16-bit value nearest to `v`. */
  function Clamp16(v: int): (r: int16)
    ensures forall y: int16 :: Distance(v, r) <= Distance(v, y)
  {
    if v > 32767 then 32767 else if v < -32768 then -32768 else v
  }

  /** The agent's samples alone, or their saturated sum with the call's. */
  function Combine(mixing: bool, own: seq<int16>, agent: seq<int16>): (r: seq<int16>)
    requires |own| == |agent|
    ensures |r| == |agent|
  {
    seq(|agent|, i requires 0 <= i < |agent| => if mixing then Clamp16(own[i] as int + agent[i] as int) else agent[i])
  }

  /** The call's frame after injection of the bytes read for it. */
  function Inject(frame: seq<int16>, bytes: seq<byte>, mixing: bool): (r: seq<int16>)
    requires |bytes| <= |frame|
    ensures |r| == |frame|
    ensures r[..|bytes|] == Combine(mixing, frame[..|bytes|], Mulaw.DecodeAll(bytes))
    ensures forall i :: |bytes| <= i < |frame| ==> r[i] == if mixing || bytes == [] then frame[i] else 0
  {
    var agent := Mulaw.DecodeAll(bytes);
    var n := |bytes|;
    if n == 0 then frame
    else if mixing then
      seq(|frame|, i requires 0 <= i < |frame| =>
        if i < n then Clamp16(frame[i] as int + agent[i] as int) else frame[i])
    else agent + seq(|frame| - n, _ => 0)
  }

  /** Session actions of one write callback for a frame of `n` samples. */
  function WriteActs(s: Session, n: nat, nowNs: nat): (acts: seq<Action>) {
    var want := Min(n, INJECT_MAX);
    if P.Readable(s.playout, want) == 0 then [ReadPlayout(want), NoteWrite(0, nowNs)] else [ReadPlayout(want)]
  }

  function WriteBytes(s: Session, n: nat): (bytes: seq<byte>)
    ensures |bytes| <= n
  {
    s.playout.data[..P.Readable(s.playout, Min(n, INJECT_MAX))]
  }

  // ------------------------------------------------------------------------------------------
  // The bridge as a state machine
  // ------------------------------------------------------------------------------------------

  /** `working` says that the worker thread is alive, `closing` that a close was requested, `cleaning` that a stop is
      under way. */
  datatype Bridge = Bridge(session: Session, hasSocket: bool, wsReady: bool, working: bool, closing: bool,
                           cleaning: bool, audioPaused: bool, stereo: bool, halve: bool, mixing: bool,
                           hold: seq<int16>)

  predicate Ready(b: Bridge) {
    b.hasSocket && b.wsReady
  }

  function Flushed(b: Bridge, budget: nat): (r: Bridge)
    requires Fits(b.session)
    ensures Fits(r.session)
    ensures r == b.(session := r.session, wsReady := r.wsReady)
  {
    if Ready(b) then b.(session := Flush(b.session, budget), wsReady := FlushDrains(b.session, budget)) else b
  }

  predicate ShuttingDown(b: Bridge) {
    b.closing || b.cleaning
  }

  /** A read callback is taken unless the bridge is shutting down, paused, or fails to get the lock. The flags are
      looked at before the lock is taken and not again: a `late` one saw them before they changed. */
  predicate Listens(b: Bridge, locked: bool, late: bool) {
    locked && (late || (!ShuttingDown(b) && !b.audioPaused))
  }

  function Captured(b: Bridge, pcm: seq<int16>, locked: bool, late: bool): (r: Bridge)
    requires Fits(b.session)
    ensures Fits(r.session)
    ensures r == b.(session := r.session, hold := r.hold) && (|b.hold| < 160 ==> |r.hold| < 160)
  {
    if !Listens(b, locked, late) then b
    else
      var stream := b.hold + Fold(b.stereo, b.halve, pcm);
      b.(session := PushFrames(b.session, stream), hold := Remainder(stream))
  }

  /** A write callback is taken for a nonempty frame, with the lock, until cleaning starts; that flag too is looked at
      before the lock is taken. */
  predicate Speaks(b: Bridge, n: nat, locked: bool, late: bool) {
    n > 0 && locked && (late || !b.cleaning)
  }

  function Spoken(b: Bridge, n: nat, locked: bool, late: bool, nowNs: nat): (r: Bridge)
    requires Fits(b.session)
    ensures Fits(r.session)
    ensures r == b.(session := r.session)
  {
    if Speaks(b, n, locked, late) then b.(session := Run(b.session, WriteActs(b.session, n, nowNs))) else b
  }

  /** Texts from the peer are ignored once the bridge is shutting down, which is looked at under the lock. The clear and
      mark commands of the module itself take the same path and are refused only if cleaning has started before they
      ask for the lock. */
  predicate Deaf(b: Bridge, local: bool, late: bool) {
    if local then b.cleaning && !late else ShuttingDown(b)
  }

  function Told(b: Bridge, json: Option<Json>, local: bool, late: bool, nowNs: nat, budget: nat): (r: Bridge)
    requires Fits(b.session)
    ensures Fits(r.session)
    ensures r == b.(session := r.session, wsReady := r.wsReady)
  {
    if Deaf(b, local, late) then b
    else Flushed(b.(session := Step(b.session, PeerCommand(Classify(b.session, json), nowNs))), budget)
  }

  lemma {:induction false} ReconnectedParts(b: Bridge, budget: nat)
    requires Fits(b.session)
    ensures var r := Reconnected(b, budget);
            if ShuttingDown(b) then r == b.(hasSocket := true, wsReady := true)
            else r.session == Flush(Greet(b.session), budget) && r.hasSocket
                 && r.wsReady == FlushDrains(Greet(b.session), budget)
  {}

  /** A new socket: the handshake is queued behind whatever is waiting, and the queue is flushed, unless a stop request
      came in between. */
  function Reconnected(b: Bridge, budget: nat): (r: Bridge)
    requires Fits(b.session)
    ensures Fits(r.session)
    ensures r == b.(session := r.session, hasSocket := r.hasSocket, wsReady := r.wsReady)
  {
    if ShuttingDown(b) then b.(hasSocket := true, wsReady := true)
    else Flushed(b.(hasSocket := true, wsReady := true, session := Greet(b.session)), budget)
  }

  function Paused(b: Bridge, on: bool, late: bool): (r: Bridge)
    requires Fits(b.session)
    ensures Fits(r.session)
    ensures r == b.(session := r.session, audioPaused := if b.cleaning && !late then b.audioPaused else on)
  {
    if b.cleaning && !late then b else b.(audioPaused := on, session := Step(b.session, SetPaused(on)))
  }

  /** The end of a stop request, once the worker has been joined: the last flush is tried even on a socket that was
      marked unready. */
  function Finished(b: Bridge, budget: nat): (r: Bridge)
    requires Fits(b.session)
    ensures Fits(r.session)
    ensures r == b.(session := r.session, hasSocket := r.hasSocket, wsReady := r.wsReady, working := r.working)
  {
    if !b.cleaning then b
    else Flushed(b.(session := Halt(b.session), wsReady := b.hasSocket || b.wsReady), budget)
           .(hasSocket := false, wsReady := if b.hasSocket then false else b.wsReady, working := false)
  }

  lemma {:induction false} ToldParts(b: Bridge, json: Option<Json>, local: bool, late: bool, nowNs: nat, budget: nat)
    requires Fits(b.session)
    ensures var r := Told(b, json, local, late, nowNs, budget);
            var s := Step(b.session, PeerCommand(Classify(b.session, json), nowNs));
            if Deaf(b, local, late) then r == b
            else && r.session == (if Ready(b) then Flush(s, budget) else s)
                 && r.wsReady == if Ready(b) then FlushDrains(s, budget) else b.wsReady
  {}

  lemma {:induction false} FinishedParts(b: Bridge, budget: nat)
    requires Fits(b.session) && b.cleaning
    ensures var r := Finished(b, budget);
            && r.session == (if b.hasSocket then Flush(Halt(b.session), budget) else Halt(b.session))
            && !r.hasSocket && !r.working && r.wsReady == if b.hasSocket then false else b.wsReady
  {}

  // ------------------------------------------------------------------------------------------
  // The bridge object
  // ------------------------------------------------------------------------------------------

  lemma {:induction false} HoldOne(s: Session, hold: seq<int16>, x: int16)
    requires Fits(s) && |hold| < 160
    ensures |hold| + 1 < 160 ==> PushFrames(s, hold + [x]) == s && Remainder(hold + [x]) == hold + [x]
    ensures |hold| + 1 == 160 ==> Remainder(hold + [x]) == []
  {
    if |hold| + 1 < 160 {
      PushFramesNone(s, hold + [x]);
    }
  }

  /** Flushing on from `s` reaches the given end. */
  ghost predicate FlushGoal(s: Session, left: nat, final: Session, drains: bool, wire: seq<Message>,
                            all: seq<Message>)
  {
    && Fits(s) && Flush(s, left) == final && FlushDrains(s, left) == drains && wire + FlushWire(s, left) == all
  }

  lemma {:induction false} SendLowersBacklog(s: Session, h: Session, t: Session)
    requires Fits(s) && h == Harvested(s) && t == Step(h, SendHead) && h.outbound.items != []
    ensures Backlog(t) < Backlog(s)
  {
    HarvestBacklog(s);
  }

  /** One turn of a flush keeps its goal in reach and lowers the backlog. */
  lemma {:induction false} FlushProgress(s: Session, h: Session, t: Session, left: nat, next: nat,
                                         final: Session, drains: bool, wire: seq<Message>, sent: seq<Message>,
                                         all: seq<Message>)
    requires FlushGoal(s, left, final, drains, wire, all) && h == Harvested(s) && t == Step(h, SendHead)
    requires h.outbound.items != [] && left > 0 && next == left - 1 && sent == wire + [h.outbound.items[0]]
    ensures FlushGoal(t, next, final, drains, sent, all) && Backlog(t) < Backlog(s)
  {
    FlushOnward(s, h, t, left, next);
    SendLowersBacklog(s, h, t);
    Associate(wire, [h.outbound.items[0]], FlushWire(t, next));
  }

  /** The last turn reaches it. */
  lemma {:induction false} FlushArrives(s: Session, h: Session, left: nat, final: Session, drains: bool,
                                        wire: seq<Message>, all: seq<Message>)
    requires FlushGoal(s, left, final, drains, wire, all) && h == Harvested(s)
    requires h.outbound.items == [] || left == 0
    ensures h == final && drains == (h.outbound.items == []) && wire == all
  {
    FlushEnd(s, h, left);
    assert wire + [] == wire;
  }

  /** `r` has queued the whole frames of `stream` and `held` is what is left of it. */
  ghost predicate Holding(s: Session, stream: seq<int16>, r: Session, held: seq<int16>) {
    Fits(s) && r == PushFrames(s, stream) && held == Remainder(stream)
  }

  lemma {:induction false} HoldMore(s: Session, stream: seq<int16>, x: int16, stream': seq<int16>, r: Session,
                                    held: seq<int16>)
    requires Holding(s, stream, r, held) && stream' == stream + [x]
    ensures Holding(s, stream', PushFrames(r, held + [x]), Remainder(held + [x]))
  {
    HoldIsTransparent(s, stream, [x]);
  }

  lemma {:induction false} NothingHeld(s: Session, hold: seq<int16>)
    requires Fits(s) && |hold| < 160
    ensures PushFrames(s, hold) == s && Remainder(hold) == hold
  {
    PushFramesNone(s, hold);
  }

  lemma {:induction false} NoMoreOut(stereo: bool, halve: bool, pcm: seq<int16>)
    requires |pcm| <= if stereo then 1 else 0
    ensures Fold(stereo, halve, pcm) == []
  {}

  class Tech {
    const session: LiveSession
    const sampling: nat
    const channels: nat
    const mixing: bool
    const hold: array<int16>
    var holdLen: nat
    var hasSocket: bool
    var wsReady: bool
    var working: bool
    var closing: bool
    var cleaning: bool
    var audioPaused: bool
    var wire: seq<Message>

    ghost predicate Valid()
      reads this, hold, session, session.outbound, session.outbound.slots, session.playout, session.playout.buf,
            session.playout.marks
      ensures Valid() ==> Fits(session.View())
    {
      session.Valid() && hold.Length == HOLD_SIZE && holdLen < 160 && Apart(hold)
    }

    /** None of the session's own buffers. */
    ghost predicate Apart(x: object) {
      x != session.outbound.slots && x != session.playout.buf && x != session.playout.marks
    }

    ghost function View(): (b: Bridge)
      requires holdLen <= hold.Length
      reads this, hold, session, session.outbound, session.playout
    {
      Bridge(session.View(), hasSocket, wsReady, working, closing, cleaning, audioPaused,
             channels >= 2, sampling == 16000, mixing, hold[..holdLen])
    }

    constructor (live: LiveSession, rate: nat, chans: nat, mix: bool)
      requires live.Valid()
      ensures Valid() && session == live && fresh(hold) && wire == []
      ensures View() == Bridge(live.View(), false, false, false, false, false, false,
                               chans >= 2, rate == 16000, mix, [])
    {
      session, sampling, channels, mixing := live, rate, chans, mix;
      hold := new int16[HOLD_SIZE];
      holdLen, hasSocket, wsReady, wire := 0, false, false, [];
      working, closing, cleaning, audioPaused := false, false, false, false;
    }

    /** One turn of the flush loop, on a socket that still takes `left` frames. `h` is the session after the harvest
        that comes with the peek, `t` the session once its head is gone. */
    method FlushTurn(left: nat, ghost h: Session, ghost t: Session) returns (more: bool)
      requires Valid() && wsReady && h == Harvested(session.View()) && t == Step(h, SendHead)
      modifies `wsReady, `wire, session`seqNo, session.outbound, session.outbound.slots, session.playout,
               session.playout.marks
      ensures Valid()
      ensures more == (h.outbound.items != [] && left > 0)
      ensures session.View() == if more then t else h
      ensures wire == if more then old(wire) + [h.outbound.items[0]] else old(wire)
      ensures wsReady == (more || h.outbound.items == [])
    {
      var head := session.PeekOutbound();
      if head.None? {
        return false;
      }
      if left == 0 {
        wsReady := false;
        return false;
      }
      SendAndDrop(head.value);
      return true;
    }

    method SendAndDrop(m: Message)
      requires Valid()
      modifies `wire, session.outbound
      ensures Valid() && wire == old(wire) + [m] && session.View() == Step(old(session.View()), SendHead)
    {
      wire := wire + [m];
      var _ := session.DropOutboundHead();
    }

    /** Peek, send, drop. The socket takes `budget` frames before it refuses one. */
    method FlushLoop(budget: nat)
      requires Valid() && wsReady
      modifies `wsReady, `wire, session`seqNo, session.outbound, session.outbound.slots, session.playout,
               session.playout.marks
      ensures Valid()
      ensures session.View() == Flush(old(session.View()), budget)
      ensures wsReady == FlushDrains(old(session.View()), budget)
      ensures wire == old(wire) + FlushWire(old(session.View()), budget)
    {
      ghost var s := session.View();
      ghost var final, drains, all := Flush(s, budget), FlushDrains(s, budget), wire + FlushWire(s, budget);
      var left: nat := budget;
      ghost var now := s;
      while true
        invariant Valid() && wsReady && now == session.View()
        invariant FlushGoal(now, left, final, drains, wire, all)
        decreases Backlog(now)
      {
        ghost var h := Harvested(now);
        ghost var t := Step(h, SendHead);
        var next: nat := if left > 0 then left - 1 else 0;
        if h.outbound.items != [] && left > 0 {
          FlushProgress(now, h, t, left, next, final, drains, wire, wire + [h.outbound.items[0]], all);
        } else {
          FlushArrives(now, h, left, final, drains, wire, all);
        }
        var more := FlushTurn(left, h, t);
        if !more {
          return;
        }
        left := next;
        now := t;
      }
    }

    method FlushOutbound(budget: nat)
      requires Valid()
      modifies `wsReady, `wire, session`seqNo, session.outbound, session.outbound.slots, session.playout,
               session.playout.marks
      ensures Valid()
      ensures session.View()
           == if old(hasSocket && wsReady) then Flush(old(session.View()), budget) else old(session.View())
      ensures wsReady == if old(hasSocket && wsReady) then FlushDrains(old(session.View()), budget) else old(wsReady)
      ensures wire == old(wire) + if old(hasSocket && wsReady) then FlushWire(old(session.View()), budget) else []
    {
      if !hasSocket || !wsReady {
        return;
      }
      FlushLoop(budget);
    }

    /** The socket is up: what the session has queued so far goes out, then the worker starts. */
    method Connect(budget: nat)
      requires Valid()
      modifies `hasSocket, `wsReady, `working, `wire, session`seqNo, session.outbound, session.outbound.slots,
               session.playout, session.playout.marks
      ensures Valid() && hasSocket && working
      ensures session.View() == Flush(old(session.View()), budget)
      ensures wsReady == FlushDrains(old(session.View()), budget)
      ensures wire == old(wire) + FlushWire(old(session.View()), budget)
    {
      Attach();
      FlushOutbound(budget);
      working := true;
    }

    method Keep(x: int16)
      requires holdLen < HOLD_SIZE == hold.Length
      modifies `holdLen, hold
      ensures holdLen == old(holdLen) + 1 && hold[..holdLen] == old(hold[..holdLen]) + [x]
    {
      if holdLen < HOLD_SIZE {
        hold[holdLen] := x;
        holdLen := holdLen + 1;
      }
    }

    /** Adds one 8 kHz sample to the hold buffer and hands a full frame to the session. */
    method Feed(x: int16)
      requires Valid()
      modifies `holdLen, hold, session`seqNo, session`chunk, session`timestampMs, session`uplinkFrames,
               session.outbound, session.outbound.slots
      ensures Valid()
      ensures session.View() == PushFrames(old(session.View()), old(hold[..holdLen]) + [x])
      ensures hold[..holdLen] == Remainder(old(hold[..holdLen]) + [x])
    {
      ghost var h := hold[..holdLen];
      HoldOne(session.View(), h, x);
      Keep(x);
      if holdLen >= 160 {
        var _ := session.PushPcm16(hold[..160]);
        holdLen := 0;
      }
    }

    /** One output sample from position `i` of a callback's buffer. */
    method TakeSample(pcm: seq<int16>, i: nat) returns (x: int16, i': nat)
      requires i + (if channels >= 2 then 1 else 0) < |pcm|
      ensures i < i' <= |pcm|
      ensures Fold(channels >= 2, sampling == 16000, pcm[i..])
           == [x] + Fold(channels >= 2, sampling == 16000, pcm[i'..])
    {
      FoldFirst(channels >= 2, sampling == 16000, pcm, i);
      var step := if channels >= 2 then 2 else 1;
      x := pcm[i];
      i' := i + step;
      if sampling == 16000 {
        if i' + (step - 1) < |pcm| {
          x := Average(x, pcm[i']);
          i' := i' + step;
        }
      }
    }

    /** The flags are tested first; `CaptureAll` is what happens under the lock, whatever they have become by then. */
    method OnReadPcm16(pcm: seq<int16>, locked: bool)
      requires Valid()
      modifies `holdLen, hold, session`seqNo, session`chunk, session`timestampMs, session`uplinkFrames,
               session.outbound, session.outbound.slots
      ensures Valid()
      ensures var r := Captured(old(View()), pcm, locked, false);
              session.View() == r.session && hold[..holdLen] == r.hold
    {
      if closing || cleaning || audioPaused || !locked {
        return;
      }
      CaptureAll(pcm);
    }

    method CaptureAll(pcm: seq<int16>)
      requires Valid()
      modifies `holdLen, hold, session`seqNo, session`chunk, session`timestampMs, session`uplinkFrames,
               session.outbound, session.outbound.slots
      ensures Valid()
      ensures var stream := old(hold[..holdLen]) + Fold(channels >= 2, sampling == 16000, pcm);
              session.View() == PushFrames(old(session.View()), stream) && hold[..holdLen] == Remainder(stream)
    {
      ghost var s := session.View();
      ghost var stereo, halve := channels >= 2, sampling == 16000;
      ghost var stream := hold[..holdLen];
      ghost var rest := Fold(stereo, halve, pcm);
      ghost var whole := stream + rest;
      var i: nat := 0;
      assert pcm[0..] == pcm;
      NothingHeld(s, stream);
      while i + (if channels >= 2 then 1 else 0) < |pcm|
        invariant i <= |pcm| && Valid()
        invariant rest == Fold(stereo, halve, pcm[i..]) && stream + rest == whole
        invariant Holding(s, stream, session.View(), hold[..holdLen])
        decreases |pcm| - i
      {
        var x, next := TakeSample(pcm, i);
        ghost var stream', rest' := stream + [x], Fold(stereo, halve, pcm[next..]);
        HoldMore(s, stream, x, stream', session.View(), hold[..holdLen]);
        Associate(stream, [x], rest');
        Feed(x);
        i, stream, rest := next, stream', rest';
      }
      NoMoreOut(stereo, halve, pcm[i..]);
      assert whole == stream;
    }

    /** Mixes or copies `n` decoded samples into the frame. */
    method InjectInto(frame: array<int16>, mulaw: array<byte>, n: nat)
      requires 0 < n <= mulaw.Length && n <= frame.Length && frame as object != mulaw as object
      modifies frame
      ensures frame[..] == Inject(old(frame[..]), mulaw[..n], mixing)
    {
      var agent := new int16[n];
      Mulaw.DecodeBuffer(mulaw, n, agent);
      assert agent[..] == agent[..n];
      ghost var was := frame[..];
      if mixing {
        var i := 0;
        while i < n
          invariant 0 <= i <= n
          invariant forall k :: 0 <= k < i ==> frame[k] == Clamp16(was[k] as int + agent[k] as int)
          invariant forall k :: i <= k < frame.Length ==> frame[k] == was[k]
          modifies frame
        {
          frame[i] := Clamp16(frame[i] as int + agent[i] as int);
          i := i + 1;
        }
      } else {
        forall k | 0 <= k < frame.Length {
          frame[k] := if k < n then agent[k] else 0;
        }
      }
      assert agent[..n] == Mulaw.DecodeAll(mulaw[..n]);
      assert frame[..] == Inject(was, mulaw[..n], mixing);
    }

    /** Reads up to `INJECT_MAX` bytes for a frame of `len` samples; an empty read closes a pending latency sample. */
    method ReadAgent(mulaw: array<byte>, len: nat, nowNs: nat) returns (n: nat)
      requires Valid() && mulaw.Length == INJECT_MAX && Apart(mulaw) && mulaw as object != hold as object
      modifies session, session.playout, session.playout.marks, mulaw
      ensures Valid() && session.View() == Run(old(session.View()), WriteActs(old(session.View()), len, nowNs))
      ensures n <= len && n <= INJECT_MAX && mulaw[..n] == WriteBytes(old(session.View()), len)
    {
      WriteRun(session.View(), len, nowNs);
      var want := if len < INJECT_MAX then len else INJECT_MAX;
      n := session.ReadPlayoutBytes(mulaw, want);
      if n == 0 {
        session.NoteWriteAfterClear(0, nowNs);
      }
    }

    method ApplyWriteFrame(frame: array<int16>, locked: bool, nowNs: nat) returns (n: nat)
      requires Valid() && frame != hold && Apart(frame)
      modifies session, session.playout, session.playout.marks, frame
      ensures Valid() && session.View() == Spoken(old(View()), frame.Length, locked, false, nowNs).session
      ensures var bytes := if Speaks(old(View()), frame.Length, locked, false)
                           then WriteBytes(old(session.View()), frame.Length) else [];
              n == |bytes| && frame[..] == Inject(old(frame[..]), bytes, mixing)
    {
      if frame.Length == 0 || cleaning || !locked {
        return 0;
      }
      var mulaw := new byte[INJECT_MAX];
      n := ReadAgent(mulaw, frame.Length, nowNs);
      if n > 0 {
        InjectInto(frame, mulaw, n);
      }
    }

    /** A text from the peer, or one the module writes to itself for its own clear and mark commands. */
    method OnText(json: Option<Json>, local: bool, nowNs: nat, budget: nat)
      requires Valid()
      modifies `wsReady, `wire, session, session.outbound, session.outbound.slots, session.playout,
               session.playout.buf, session.playout.marks
      ensures Valid()
      ensures var r := Told(old(View()), json, local, false, nowNs, budget);
              session.View() == r.session && wsReady == r.wsReady
      ensures var c := PeerCommand(Classify(old(session.View()), json), nowNs);
              wire == old(wire) + if Deaf(old(View()), local, false) || !Ready(old(View())) then []
                                  else FlushWire(Step(old(session.View()), c), budget)
    {
      ToldParts(View(), json, local, false, nowNs, budget);
      if cleaning || (closing && !local) {
        return;
      }
      var _ := session.HandlePeerJson(json, nowNs);
      FlushOutbound(budget);
    }

    /** `b` is the bridge as the new socket finds it. */
    method OnReconnected(budget: nat, ghost b: Bridge)
      requires Valid() && b == View()
      modifies `hasSocket, `wsReady, `wire, session`seqNo, session.outbound, session.outbound.slots, session.playout,
               session.playout.marks
      ensures Valid()
      ensures var r := Reconnected(b, budget);
              session.View() == r.session && hasSocket == r.hasSocket && wsReady == r.wsReady
      ensures wire == old(wire) + if ShuttingDown(b) then [] else FlushWire(Greet(b.session), budget)
    {
      ReconnectedParts(b, budget);
      if closing || cleaning {
        Attach();
        return;
      }
      GreetAndFlush(budget);
    }

    method Attach()
      modifies `hasSocket, `wsReady
      ensures hasSocket && wsReady
    {
      hasSocket, wsReady := true, true;
    }

    method GreetAndFlush(budget: nat)
      requires Valid()
      modifies `hasSocket, `wsReady, `wire, session`seqNo, session.outbound, session.outbound.slots, session.playout,
               session.playout.marks
      ensures Valid() && hasSocket
      ensures session.View() == Flush(Greet(old(session.View())), budget)
      ensures wsReady == FlushDrains(Greet(old(session.View())), budget)
      ensures wire == old(wire) + FlushWire(Greet(old(session.View())), budget)
    {
      Regreet();
      FlushOutbound(budget);
    }

    method Regreet()
      requires Valid()
      modifies `hasSocket, `wsReady, session`seqNo, session.outbound, session.outbound.slots
      ensures Valid() && hasSocket && wsReady && session.View() == Greet(old(session.View()))
    {
      Attach();
      var _ := session.RehandshakeNow();
    }

    /** A close is asked for, by the host. */
    method RequestClose()
      requires Valid()
      modifies `closing
      ensures Valid() && View() == old(View()).(closing := true)
    {
      closing := true;
    }

    /** The first part of a stop: from here on nothing new is let in. */
    method BeginStop()
      requires Valid()
      modifies `closing, `cleaning
      ensures Valid() && View() == old(View()).(closing := true, cleaning := true)
    {
      cleaning := true;
      closing := true;
    }

    method PauseAudio(on: bool)
      requires Valid()
      modifies `audioPaused, session`paused
      ensures Valid()
      ensures var r := Paused(old(View()), on, false); session.View() == r.session && audioPaused == r.audioPaused
    {
      if cleaning {
        return;
      }
      audioPaused := on;
      session.Pause(on);
    }

    /** The stop message is queued and, if there is a socket, a last flush is allowed. */
    method StopSession()
      requires Valid()
      modifies `wsReady, session, session.outbound, session.outbound.slots
      ensures Valid() && session.View() == Halt(old(session.View()))
      ensures wsReady == (hasSocket || old(wsReady))
    {
      var _ := session.StopNow();
      if hasSocket {
        wsReady := true;
      }
    }

    /** `b` is the bridge as the worker has left it. */
    method FinishStop(budget: nat, ghost b: Bridge)
      requires Valid() && cleaning && b == View()
      modifies `working, `hasSocket, `wsReady, `wire, session, session.outbound, session.outbound.slots,
               session.playout, session.playout.marks
      ensures Valid()
      ensures var r := Finished(b, budget);
              session.View() == r.session && hasSocket == r.hasSocket && wsReady == r.wsReady && working == r.working
      ensures wire == old(wire) + if b.hasSocket then FlushWire(Halt(b.session), budget) else []
    {
      FinishedParts(b, budget);
      working := false;
      StopAndFlush(budget);
      Detach();
    }

    method Detach()
      modifies `hasSocket, `wsReady
      ensures !hasSocket && wsReady == (old(wsReady) && !old(hasSocket))
    {
      if hasSocket {
        hasSocket, wsReady := false, false;
      }
    }

    method StopAndFlush(budget: nat)
      requires Valid()
      modifies `wsReady, `wire, session, session.outbound, session.outbound.slots, session.playout,
               session.playout.marks
      ensures Valid() && (hasSocket || wsReady == old(wsReady))
      ensures session.View()
           == if hasSocket then Flush(Halt(old(session.View())), budget) else Halt(old(session.View()))
      ensures wire == old(wire) + if hasSocket then FlushWire(Halt(old(session.View())), budget) else []
    {
      StopSession();
      FlushOutbound(budget);
    }
  }

  lemma {:induction false} LeftFirst(pcm: seq<int16>, i: nat)
    requires i + 1 < |pcm|
    ensures Left(pcm[i..]) == [pcm[i]] + Left(pcm[i + 2..])
  {
    assert pcm[i..][2..] == pcm[i + 2..];
  }

  /** How far one output sample reaches, and what it is. */
  lemma {:induction false} FoldFirst(stereo: bool, halve: bool, pcm: seq<int16>, i: nat)
    requires i + (if stereo then 1 else 0) < |pcm|
    ensures var step := if stereo then 2 else 1;
            if halve && i + step + (step - 1) < |pcm| then
              Fold(stereo, halve, pcm[i..])
                == [Average(pcm[i], pcm[i + step])] + Fold(stereo, halve, pcm[i + 2 * step..])
            else
              Fold(stereo, halve, pcm[i..]) == [pcm[i]] + Fold(stereo, halve, pcm[i + step..])
  {
    if stereo {
      LeftFirst(pcm, i);
      var rest := Left(pcm[i + 2..]);
      if halve && i + 3 < |pcm| {
        LeftFirst(pcm, i + 2);
        HalvePair(pcm[i], pcm[i + 2], Left(pcm[i + 4..]));
        assert [pcm[i]] + ([pcm[i + 2]] + Left(pcm[i + 4..])) == [pcm[i], pcm[i + 2]] + Left(pcm[i + 4..]);
      } else if halve {
        assert rest == [];
      }
    } else if halve && i + 1 < |pcm| {
      HalvePair(pcm[i], pcm[i + 1], pcm[i + 2..]);
      assert pcm[i..] == [pcm[i], pcm[i + 1]] + pcm[i + 2..];
    } else {
      assert pcm[i..] == [pcm[i]] + pcm[i + 1..];
      if halve { assert pcm[i + 1..] == []; }
    }
  }

  lemma {:induction false} HalvePair(a: int16, b: int16, rest: seq<int16>)
    ensures Halve([a, b] + rest) == [Average(a, b)] + Halve(rest)
  {
    assert ([a, b] + rest)[2..] == rest;
  }

  lemma {:induction false} WriteRun(s: Session, n: nat, nowNs: nat)
    requires Fits(s)
    ensures var want := Min(n, INJECT_MAX); var r := Step(s, ReadPlayout(want));
            Run(s, WriteActs(s, n, nowNs)) == if P.Readable(s.playout, want) == 0 then Noted(r, 0, nowNs) else r
  {
    var want := Min(n, INJECT_MAX);
    RunOne(s, ReadPlayout(want));
    assert [ReadPlayout(want), NoteWrite(0, nowNs)][..1] == [ReadPlayout(want)];
  }
}
