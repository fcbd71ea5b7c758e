/** The audio of a bridge over every run: from read callbacks to the wire, from texts to write callbacks. */
module MediaRuns {
  import opened Sequences
  import opened Protocol
  import opened Session
  import opened SessionRuns
  import opened Bridge
  import opened BridgeRuns
  import Mulaw
  import P = Playout
  import T = Timeline
  import R = Refinement

  // ------------------------------------------------------------------------------------------
  // Uplink: which samples there are
  // ------------------------------------------------------------------------------------------

  /** The 8 kHz samples of a read callback that was taken. */
  function HeardBy(b: Bridge, e: Event): (r: seq<int16>) {
    if e.ReadCallback? && Listens(b, e.locked, e.late) then Fold(b.stereo, b.halve, e.pcm) else []
  }

  /** Those of all read callbacks, one after the other. */
  function Heard(p: Setup, events: seq<Event>): (r: seq<int16>) {
    if events == [] then []
    else
      var init := events[..|events| - 1];
      Heard(p, init) + HeardBy(After(p, init), events[|events| - 1])
  }

  /** The samples of a taken read callback as the host delivers them. */
  function TakenBy(b: Bridge, e: Event): (r: seq<int16>) {
    if e.ReadCallback? && Listens(b, e.locked, e.late) then e.pcm else []
  }

  function Taken(p: Setup, events: seq<Event>): (r: seq<int16>) {
    if events == [] then []
    else
      var init := events[..|events| - 1];
      Taken(p, init) + TakenBy(After(p, init), events[|events| - 1])
  }

  /** Every taken callback is a whole number of output samples. */
  predicate Aligned(p: Setup, events: seq<Event>) {
    if events == [] then true
    else
      var init := events[..|events| - 1];
      Aligned(p, init) && |TakenBy(After(p, init), events[|events| - 1])| % Unit(p.stereo, p.halve) == 0
  }

  /** Then how the host cuts its audio into callbacks makes no difference over a whole run, at any rate and with any
      number of channels. */
  lemma {:induction false} CallbackSizesInvisible(p: Setup, events: seq<Event>)
    requires Aligned(p, events)
    ensures Heard(p, events) == Fold(p.stereo, p.halve, Taken(p, events))
    ensures |Taken(p, events)| % Unit(p.stereo, p.halve) == 0
    decreases |events|
  {
    if events != [] {
      var init, e := events[..|events| - 1], events[|events| - 1];
      var b := After(p, init);
      CallbackSizesInvisible(p, init);
      SettingsFixed(p, init);
      HeardIsFold(b, e);
      FoldOn(p.stereo, p.halve, Taken(p, init), TakenBy(b, e), Heard(p, init), HeardBy(b, e));
    }
  }

  lemma {:induction false} HeardIsFold(b: Bridge, e: Event)
    ensures HeardBy(b, e) == Fold(b.stereo, b.halve, TakenBy(b, e))
  {}

  lemma {:induction false} FoldOn(stereo: bool, halve: bool, a: seq<int16>, b: seq<int16>, fa: seq<int16>,
                                  fb: seq<int16>)
    requires |a| % Unit(stereo, halve) == 0 && |b| % Unit(stereo, halve) == 0
    requires fa == Fold(stereo, halve, a) && fb == Fold(stereo, halve, b)
    ensures fa + fb == Fold(stereo, halve, a + b) && |a + b| % Unit(stereo, halve) == 0
  {
    FoldAppend(stereo, halve, a, b);
    AlignedSum(stereo, halve, |a|, |b|);
  }

  lemma AlignedSum(stereo: bool, halve: bool, m: nat, n: nat)
    requires m % Unit(stereo, halve) == 0 && n % Unit(stereo, halve) == 0
    ensures (m + n) % Unit(stereo, halve) == 0
  {
    if stereo && halve {
      SumOfFours(m, n);
    } else if stereo || halve {
      SumOfTwos(m, n);
    }
  }

  lemma SumOfTwos(m: nat, n: nat)
    requires m % 2 == 0 && n % 2 == 0
    ensures (m + n) % 2 == 0
  {}

  lemma SumOfFours(m: nat, n: nat)
    requires m % 4 == 0 && n % 4 == 0
    ensures (m + n) % 4 == 0
  {}

  /** Up to the last whole frame. */
  function Whole(pcm: seq<int16>): (r: seq<int16>)
    ensures |r| % 160 == 0 && |r| / 160 == |pcm| / 160
  {
    pcm[..|pcm| / 160 * 160]
  }

  /** A session that does not send throws whole frames away; what does not fill one is held all the same. */
  function Retain(s: seq<int16>, sending: bool, more: seq<int16>): (r: seq<int16>) {
    if sending then s + more else Whole(s) + Remainder(Remainder(s) + more)
  }

  /** What is left of `Heard`: the samples in frames, then those held. */
  function Survivors(p: Setup, events: seq<Event>): (r: seq<int16>) {
    if events == [] then []
    else
      var init := events[..|events| - 1];
      var b := After(p, init);
      Retain(Survivors(p, init), Sending(b.session), HeardBy(b, events[|events| - 1]))
  }

  /** Frames completed while the session does not send. */
  function LostBy(b: Bridge, e: Event): (n: nat) {
    if Sending(b.session) then 0 else |b.hold + HeardBy(b, e)| / 160
  }

  function Lost(p: Setup, events: seq<Event>): (n: nat) {
    if events == [] then 0
    else
      var init := events[..|events| - 1];
      Lost(p, init) + LostBy(After(p, init), events[|events| - 1])
  }

  // ------------------------------------------------------------------------------------------
  // Uplink: where they go
  // ------------------------------------------------------------------------------------------

  /** These messages carry the blocks of `s` from the one numbered `first` on. */
  ghost predicate Carry(msgs: seq<Message>, first: nat, s: seq<int16>) {
    && first + |msgs| <= |s| / 160
    && (forall k :: 0 <= k < |msgs| ==>
          msgs[k].Media? && msgs[k].payload == Mulaw.EncodeAll(Block(s, first + k)))
  }

  /** The k-th media message of `h` carries the k-th block of `s`. */
  ghost predicate Blocks(h: seq<Message>, s: seq<int16>) {
    |MediaOf(h)| == |s| / 160 && Carry(MediaOf(h), 0, s)
  }

  lemma {:induction false} WholeAndRemainder(s: seq<int16>)
    ensures Whole(s) + Remainder(s) == s
  {}

  lemma {:induction false} RemainderAgain(s: seq<int16>)
    ensures Remainder(Remainder(s)) == Remainder(s)
  {
    var r := Remainder(s);
    assert |r| / 160 == 0;
  }

  /** What is held is always the remainder. */
  lemma {:induction false} RetainRemainder(s: seq<int16>, sending: bool, more: seq<int16>)
    ensures Remainder(Retain(s, sending, more)) == Remainder(Remainder(s) + more)
  {
    var stream := Remainder(s) + more;
    if sending {
      WholeAndRemainder(s);
      Associate(Whole(s), Remainder(s), more);
      RemainderPast(Whole(s), stream);
    } else {
      RemainderPast(Whole(s), Remainder(stream));
      RemainderAgain(stream);
    }
  }

  lemma {:induction false} BlockBefore(a: seq<int16>, b: seq<int16>, k: nat)
    requires |a| % 160 == 0 && k < |a| / 160
    ensures k < |a + b| / 160 && Block(a + b, k) == Block(a, k)
  {
    assert |a + b| / 160 == |a| / 160 + |b| / 160;
  }

  lemma {:induction false} WholeBlock(s: seq<int16>, k: nat)
    requires k < |s| / 160
    ensures Block(Whole(s), k) == Block(s, k)
  {
    WholeAndRemainder(s);
    BlockBefore(Whole(s), Remainder(s), k);
  }

  /** The blocks there were stay where they are. */
  lemma {:induction false} RetainBlock(s: seq<int16>, sending: bool, more: seq<int16>, k: nat)
    requires k < |s| / 160
    ensures k < |Retain(s, sending, more)| / 160 && Block(Retain(s, sending, more), k) == Block(s, k)
  {
    WholeBlock(s, k);
    if sending {
      WholeAndRemainder(s);
      Associate(Whole(s), Remainder(s), more);
      BlockBefore(Whole(s), Remainder(s) + more, k);
    } else {
      BlockBefore(Whole(s), Remainder(Remainder(s) + more), k);
    }
  }

  /** New blocks come from the held samples and the new ones. */
  lemma {:induction false} NewBlock(s: seq<int16>, more: seq<int16>, k: nat)
    requires k < |Remainder(s) + more| / 160
    ensures |s| / 160 + k < |s + more| / 160
    ensures Block(s + more, |s| / 160 + k) == Block(Remainder(s) + more, k)
  {
    WholeAndRemainder(s);
    Associate(Whole(s), Remainder(s), more);
    BlockPast(Whole(s), Remainder(s) + more, k);
  }

  lemma {:induction false} RetainCount(s: seq<int16>, sending: bool, more: seq<int16>)
    ensures |Retain(s, sending, more)| / 160
         == |s| / 160 + if sending then |Remainder(s) + more| / 160 else 0
  {
    var stream := Remainder(s) + more;
    if sending {
      assert |s + more| == |s| / 160 * 160 + |stream|;
    } else {
      assert |Remainder(stream)| / 160 == 0;
    }
  }

  lemma {:induction false} CarryAppend(a: seq<Message>, b: seq<Message>, s: seq<int16>)
    requires Carry(a, 0, s) && Carry(b, |a|, s)
    ensures Carry(a + b, 0, s)
  {
    forall k | 0 <= k < |a + b|
      ensures (a + b)[k].Media? && (a + b)[k].payload == Mulaw.EncodeAll(Block(s, k))
    {
      if k >= |a| {
        assert (a + b)[k] == b[k - |a|];
      }
    }
  }

  lemma {:induction false} CarryOld(msgs: seq<Message>, s: seq<int16>, sending: bool, more: seq<int16>)
    requires Carry(msgs, 0, s)
    ensures Carry(msgs, 0, Retain(s, sending, more))
  {
    RetainCount(s, sending, more);
    forall k | 0 <= k < |msgs| ensures msgs[k].payload == Mulaw.EncodeAll(Block(Retain(s, sending, more), k)) {
      RetainBlock(s, sending, more, k);
    }
  }

  lemma {:induction false} CarryNew(msgs: seq<Message>, s: seq<int16>, more: seq<int16>)
    requires Carry(msgs, 0, Remainder(s) + more)
    ensures Carry(msgs, |s| / 160, s + more)
  {
    RetainCount(s, true, more);
    forall k | 0 <= k < |msgs| ensures msgs[k].payload == Mulaw.EncodeAll(Block(s + more, |s| / 160 + k)) {
      NewBlock(s, more, k);
    }
  }

  /** Frames of the held and the new samples, queued or thrown away. */
  lemma {:induction false} BlocksGrow(h: seq<Message>, s: seq<int16>, sending: bool, more: seq<int16>, e: seq<Message>)
    requires Blocks(h, s)
    requires sending ==> Blocks(e, Remainder(s) + more)
    requires !sending ==> MediaOf(e) == []
    ensures Blocks(h + e, Retain(s, sending, more))
  {
    RetainCount(s, sending, more);
    MediaAppend(h, e);
    CarryOld(MediaOf(h), s, sending, more);
    if sending {
      CarryNew(MediaOf(e), s, more);
      CarryAppend(MediaOf(h), MediaOf(e), s + more);
    } else {
      assert MediaOf(h) + [] == MediaOf(h);
    }
  }

  lemma {:induction false} FramesOf(s: Session, pcm: seq<int16>)
    ensures Blocks(Frames(s, pcm), pcm)
  {
    AllMedia(Frames(s, pcm));
  }

  lemma {:induction false} AcksAreNoMedia(s: Session)
    ensures MediaOf(Emitted(s, HarvestMarks)) == []
  {
    NoMedia(Emitted(s, HarvestMarks));
  }

  lemma {:induction false} OthersQueueNoMedia(b: Bridge, e: Event)
    requires Fits(b.session) && !e.ReadCallback?
    ensures MediaOf(Messages(b, e)) == []
  {
    NoMedia(MessagesBefore(b, e));
    AcksAreNoMedia(Midway(b, e));
    MediaAppend(MessagesBefore(b, e), if FlushOf(b, e).Some? then Emitted(Midway(b, e), HarvestMarks) else []);
  }

  lemma {:induction false} ReadQueues(b: Bridge, e: Event)
    requires Fits(b.session) && e.ReadCallback? && Listens(b, e.locked, e.late)
    ensures Messages(b, e)
         == if Sending(b.session) then Frames(b.session, b.hold + HeardBy(b, e)) else []
    ensures Next(b, e).hold == Remainder(b.hold + HeardBy(b, e))
  {}

  ghost predicate UplinkFaithful(h: seq<Message>, hold: seq<int16>, s: seq<int16>) {
    Blocks(h, s) && hold == Remainder(s)
  }

  /** One event keeps the account. */
  lemma {:induction false} UplinkStep(h: seq<Message>, b: Bridge, e: Event, s: seq<int16>)
    requires Fits(b.session) && UplinkFaithful(h, b.hold, s)
    ensures UplinkFaithful(h + Messages(b, e), Next(b, e).hold, Retain(s, Sending(b.session), HeardBy(b, e)))
  {
    if e.ReadCallback? && Listens(b, e.locked, e.late) {
      UplinkRead(h, b, e, s);
    } else {
      RetainNothing(s, Sending(b.session));
      if e.ReadCallback? {
        UnheardRead(b, e);
      } else {
        OthersQueueNoMedia(b, e);
        NextHold(b, e);
      }
      BlocksStay(h, Messages(b, e), s);
    }
  }

  lemma {:induction false} UplinkRead(h: seq<Message>, b: Bridge, e: Event, s: seq<int16>)
    requires Fits(b.session) && UplinkFaithful(h, b.hold, s) && e.ReadCallback? && Listens(b, e.locked, e.late)
    ensures UplinkFaithful(h + Messages(b, e), Next(b, e).hold, Retain(s, Sending(b.session), HeardBy(b, e)))
  {
    var more := HeardBy(b, e);
    ReadQueues(b, e);
    FramesOf(b.session, b.hold + more);
    BlocksGrow(h, s, Sending(b.session), more, Messages(b, e));
    RetainRemainder(s, Sending(b.session), more);
  }

  lemma {:induction false} BlocksStay(h: seq<Message>, e: seq<Message>, s: seq<int16>)
    requires Blocks(h, s) && MediaOf(e) == []
    ensures Blocks(h + e, s)
  {
    MediaAppend(h, e);
    assert MediaOf(h) + [] == MediaOf(h);
  }

  lemma {:induction false} UnheardRead(b: Bridge, e: Event)
    requires Fits(b.session) && e.ReadCallback? && !Listens(b, e.locked, e.late)
    ensures MediaOf(Messages(b, e)) == [] && Next(b, e).hold == b.hold
  {
    assert Messages(b, e) == [];
  }

  lemma {:induction false} RetainNothing(s: seq<int16>, sending: bool)
    ensures Retain(s, sending, []) == s
  {
    if sending {
      assert s + [] == s;
    } else {
      assert Remainder(s) + [] == Remainder(s);
      RemainderAgain(s);
      WholeAndRemainder(s);
    }
  }

  /** Over every run the k-th media message queued carries the mu-law encoding of the k-th block of 160 surviving
      samples, and what does not fill a block is held: no callback size, flush, eviction or reconnect loses, repeats
      or reorders a sample. */
  lemma {:induction false} UplinkOverRuns(p: Setup, events: seq<Event>)
    ensures UplinkFaithful(Trace(p, events).q.pushed, After(p, events).hold, Survivors(p, events))
    decreases |events|
  {
    if events == [] {
      UplinkStart(p);
    } else {
      var init, e := events[..|events| - 1], events[|events| - 1];
      UplinkOverRuns(p, init);
      SplitLast([], events);
      HistorySnoc(p, init, e);
      UplinkStep(Trace(p, init).q.pushed, After(p, init), e, Survivors(p, init));
    }
  }

  lemma {:induction false} UplinkStart(p: Setup)
    ensures UplinkFaithful(Trace(p, []).q.pushed, After(p, []).hold, [])
  {
    HistoryStart(p);
    NoMediaAtFirst(p.c);
  }

  lemma {:induction false} NoMediaAtFirst(c: Config)
    ensures MediaOf(FirstMessages(c)) == []
  {
    NoMediaInHandshake(Opened(Init(c.queueCap, c.playoutCap), c.streamSid, c.callSid, c.accountSid, c.custom));
  }

  lemma {:induction false} NoMediaInHandshake(s: Session)
    ensures MediaOf(Handshake(s)) == []
  {
    NoMedia(Handshake(s));
  }

  // ------------------------------------------------------------------------------------------
  // Uplink: when nothing is lost
  // ------------------------------------------------------------------------------------------

  lemma {:induction false} RetainLoss(s: seq<int16>, sending: bool, more: seq<int16>, lost: nat)
    requires lost == if sending then 0 else |Remainder(s) + more| / 160
    ensures |Retain(s, sending, more)| + 160 * lost == |s| + |more|
    ensures lost == 0 ==> Retain(s, sending, more) == s + more
  {
    if !sending {
      var stream := Remainder(s) + more;
      assert |stream| == |stream| / 160 * 160 + |Remainder(stream)|;
      assert |s| == |Whole(s)| + |Remainder(s)|;
      if lost == 0 {
        assert Remainder(stream) == stream;
        WholeAndRemainder(s);
        Associate(Whole(s), Remainder(s), more);
      }
    }
  }

  /** The samples lost are whole frames, and all samples survive if and only if no frame was completed while the session
      did not send. */
  lemma {:induction false} NothingLostIff(p: Setup, events: seq<Event>)
    ensures |Heard(p, events)| == |Survivors(p, events)| + 160 * Lost(p, events)
    ensures Survivors(p, events) == Heard(p, events) <==> Lost(p, events) == 0
    decreases |events|
  {
    if events != [] {
      var init, e := events[..|events| - 1], events[|events| - 1];
      var b := After(p, init);
      NothingLostIff(p, init);
      UplinkOverRuns(p, init);
      RetainLoss(Survivors(p, init), Sending(b.session), HeardBy(b, e), LostBy(b, e));
    }
  }

  /** Only a read callback that passed its test before a pause or a stop, and got the lock after it, can lose a
      frame. */
  lemma {:induction false} OnlyLateReadsLose(p: Setup, events: seq<Event>)
    requires forall k :: 0 <= k < |events| && events[k].ReadCallback? ==> !events[k].late
    ensures Lost(p, events) == 0 && Survivors(p, events) == Heard(p, events)
    decreases |events|
  {
    if events != [] {
      var init, e := events[..|events| - 1], events[|events| - 1];
      OnlyLateReadsLose(p, init);
      AlwaysInStep(p, init);
      TimelyReadLosesNothing(After(p, init), e);
    }
    NothingLostIff(p, events);
  }

  lemma {:induction false} TimelyReadLosesNothing(b: Bridge, e: Event)
    requires InStep(b) && (e.ReadCallback? ==> !e.late)
    ensures LostBy(b, e) == 0
  {
    if !Sending(b.session) {
      assert HeardBy(b, e) == [];
      assert b.hold + [] == b.hold;
    }
  }

  /** Such a run: the bridge is paused while a read callback of one frame waits for the lock. */
  lemma {:induction false} LateReadLosesAFrame(p: Setup, pcm: seq<int16>)
    requires !p.stereo && !p.halve && |pcm| == 160
    ensures var events := [Pause(true, false), ReadCallback(pcm, true, true)];
            Lost(p, events) == 1 && Heard(p, events) == pcm && Survivors(p, events) == []
  {
    var paused, e := [Pause(true, false)], ReadCallback(pcm, true, true);
    var events := [Pause(true, false), e];
    assert events[..1] == paused && paused[..0] == [];
    PausedBridge(p);
    var b := After(p, paused);
    assert HeardBy(b, e) == pcm;
    assert b.hold + pcm == pcm;
    assert Heard(p, paused) == [] && Lost(p, paused) == 0;
    assert [] + pcm == pcm;
    NothingLostIff(p, events);
  }

  lemma {:induction false} PausedBridge(p: Setup)
    ensures var b := After(p, [Pause(true, false)]);
            b.session.paused && b.hold == [] && b.stereo == p.stereo && b.halve == p.halve
    ensures LostBy(Open(p), Pause(true, false)) == 0 && HeardBy(Open(p), Pause(true, false)) == []
  {
    assert [Pause(true, false)][..0] == [];
    assert After(p, []) == Open(p);
  }

  // ------------------------------------------------------------------------------------------
  // Uplink: what reaches the wire
  // ------------------------------------------------------------------------------------------

  /** Selecting messages selects media. */
  lemma {:induction false} MediaOfSelect(h: seq<Message>, fates: seq<bool>) returns (sent: seq<bool>)
    requires |h| == |fates|
    ensures |sent| == |MediaOf(h)| && MediaOf(Select(h, fates)) == Select(MediaOf(h), sent)
    decreases |h|
  {
    if h == [] {
      sent := [];
    } else {
      var n := |h| - 1;
      var before := MediaOfSelect(h[..n], fates[..n]);
      sent := before + if h[n].Media? then [fates[n]] else [];
      var one := if fates[n] then [h[n]] else [];
      MediaAppend(Select(h[..n], fates[..n]), one);
      OneMedia(h[n]);
      if h[n].Media? {
        SelectAppend(MediaOf(h[..n]), before, [h[n]], [fates[n]]);
        assert Select([h[n]], [fates[n]]) == one;
      } else {
        assert before + [] == before && MediaOf(h[..n]) + [] == MediaOf(h[..n]);
      }
    }
  }

  lemma {:induction false} OneMedia(m: Message)
    ensures MediaOf([m]) == if m.Media? then [m] else []
  {
    assert [m][..0] == [];
  }

  /** The media on the wire are the blocks of the surviving samples, in order, with one label per block that has left
      the queue saying whether it was sent or evicted; the blocks behind those are still queued, and the rest is
      held. */
  lemma {:induction false} WireCarriesTheBlocks(p: Setup, events: seq<Event>)
    returns (media: seq<Message>, sent: seq<bool>)
    ensures var s := Survivors(p, events);
            && |media| == |s| / 160 && |sent| <= |media|
            && (forall k :: 0 <= k < |media| ==> Carries(media[k], s, k))
            && MediaOf(Wire(p, events)) == Select(media[..|sent|], sent)
            && MediaOf(After(p, events).session.outbound.items) == media[|sent|..]
            && media == MediaOf(Trace(p, events).q.pushed)
            && After(p, events).hold == Remainder(s)
  {
    var t := Trace(p, events).q;
    UplinkOverRuns(p, events);
    HistoryNumbered(p.c, AllActs(p, events));
    BridgeRunIsSessionRun(p, events);
    WireIsTaken(p, events);
    var n := |t.fates|;
    media := MediaOf(t.pushed);
    sent := MediaOfSelect(t.pushed[..n], t.fates);
    Cut(t.pushed, n);
    MediaAppend(t.pushed[..n], t.pushed[n..]);
    CarriedBlocks(t.pushed, Survivors(p, events));
  }

  /** The message carries the k-th block under the number and the time of that block. */
  ghost predicate Carries(m: Message, s: seq<int16>, k: nat) {
    && k < |s| / 160 && m.Media? && m.payload == Mulaw.EncodeAll(Block(s, k))
    && m.chunk == (1 + k) % 0x1_0000_0000 && m.timestampMs == 20 * k % 0x1_0000_0000
  }

  lemma {:induction false} CarriedBlocks(h: seq<Message>, s: seq<int16>)
    requires Blocks(h, s) && Clocked(h)
    ensures forall k :: 0 <= k < |MediaOf(h)| ==> Carries(MediaOf(h)[k], s, k)
  {}

  // ------------------------------------------------------------------------------------------
  // The playout of a bridge is a ring that takes the operations of its events
  // ------------------------------------------------------------------------------------------

  function AllOps(p: Setup, events: seq<Event>): (ops: seq<T.Op>) {
    if events == [] then []
    else
      var init := events[..|events| - 1];
      AllOps(p, init) + Ops(After(p, init), events[|events| - 1])
  }

  function RingSize(p: Setup): (n: nat)
    ensures n > 0
  {
    Opening(p.c).playout.capacity
  }

  /** So everything proved of the ring holds of the bridge. */
  lemma {:induction false} PlayoutIsRingRun(p: Setup, events: seq<Event>)
    ensures Trace(p, events).p == T.Run(T.Begin(RingSize(p)), AllOps(p, events))
    decreases |events|
  {
    if events == [] {
      HistoryStart(p);
    } else {
      var init, e := events[..|events| - 1], events[|events| - 1];
      PlayoutIsRingRun(p, init);
      SplitLast([], events);
      HistorySnoc(p, init, e);
      T.RunAppend(T.Begin(RingSize(p)), AllOps(p, init), Ops(After(p, init), e));
    }
  }

  /** What at most one operation and a harvest behind it take in and give out. */
  lemma {:induction false} OpsEffect(c: T.Played, ops: seq<T.Op>, tail: seq<T.Op>)
    requires P.Fits(c.p) && |ops| <= 1 && (tail == [] || tail == [T.HarvestOp(8)])
    ensures var r := T.Run(c, ops + tail);
            && r.heard == c.heard + (if ops == [] then [] else T.HeardBy(c.p, ops[0]))
            && r.accepted == c.accepted + (if ops == [] then [] else T.AcceptedBy(c.p, ops[0]))
  {
    T.RunAppend(c, ops, tail);
    if ops != [] {
      OneOp(c, ops[0]);
      assert ops == [ops[0]];
    } else {
      assert c.heard + [] == c.heard && c.accepted + [] == c.accepted;
    }
    var d := T.Run(c, ops);
    if tail != [] {
      OneOp(d, T.HarvestOp(8));
      assert d.heard + [] == d.heard && d.accepted + [] == d.accepted;
    }
  }

  // ------------------------------------------------------------------------------------------
  // Downlink
  // ------------------------------------------------------------------------------------------

  /** The playout bytes an event reads for the call. */
  function ReadFor(b: Bridge, e: Event): (bytes: seq<byte>)
    ensures |bytes| <= |FrameOf(e)|
  {
    if e.WriteCallback? && Speaks(b, |e.frame|, e.locked, e.late) then WriteBytes(b.session, |e.frame|) else []
  }

  function FrameOf(e: Event): (frame: seq<int16>) {
    if e.WriteCallback? then e.frame else []
  }

  /** The audio an event adds to the playout. */
  function AudioOf(b: Bridge, e: Event): (bytes: seq<byte>) {
    if e.Text? && !Absent(b, e) && !Deaf(b, e.local, e.late) && Classify(b.session, e.json).Play?
       && P.Accepts(b.session.playout, Classify(b.session, e.json).payload)
    then Classify(b.session, e.json).payload else []
  }

  /** The payloads of all media texts that were accepted. */
  function Audio(p: Setup, events: seq<Event>): (bytes: seq<byte>) {
    if events == [] then []
    else
      var init := events[..|events| - 1];
      Audio(p, init) + AudioOf(After(p, init), events[|events| - 1])
  }

  /** The call's frame as a write callback leaves it. */
  function FrameAfter(p: Setup, b: Bridge, e: Event): (frame: seq<int16>)
    ensures |frame| == |FrameOf(e)|
  {
    Inject(FrameOf(e), ReadFor(b, e), p.mixing)
  }

  /** What the write callbacks put into the call: of each frame, the samples that came from the playout. */
  function Injected(p: Setup, events: seq<Event>): (r: seq<int16>) {
    if events == [] then []
    else
      var init, e := events[..|events| - 1], events[|events| - 1];
      var b := After(p, init);
      Injected(p, init) + FrameAfter(p, b, e)[..|ReadFor(b, e)|]
  }

  /** The call's own samples at those places. */
  function Own(p: Setup, events: seq<Event>): (r: seq<int16>) {
    if events == [] then []
    else
      var init, e := events[..|events| - 1], events[|events| - 1];
      Own(p, init) + FrameOf(e)[..|ReadFor(After(p, init), e)|]
  }

  lemma CombineAppend(mixing: bool, own: seq<int16>, agent: seq<int16>, own': seq<int16>, agent': seq<int16>)
    requires |own| == |agent| && |own'| == |agent'|
    ensures Combine(mixing, own + own', agent + agent') == Combine(mixing, own, agent) + Combine(mixing, own', agent')
  {}

  lemma {:induction false} DownlinkMore(mixing: bool, own: seq<int16>, heard: seq<byte>, injected: seq<int16>,
                                        frame: seq<int16>, bytes: seq<byte>)
    requires |own| == |heard| && injected == Combine(mixing, own, Mulaw.DecodeAll(heard)) && |bytes| <= |frame|
    ensures injected + Inject(frame, bytes, mixing)[..|bytes|]
         == Combine(mixing, own + frame[..|bytes|], Mulaw.DecodeAll(heard + bytes))
  {
    Mulaw.DecodeAllAppend(heard, bytes);
    CombineAppend(mixing, own, Mulaw.DecodeAll(heard), frame[..|bytes|], Mulaw.DecodeAll(bytes));
  }

  lemma {:induction false} OpsHear(b: Bridge, e: Event)
    requires Fits(b.session)
    ensures var ops := OpsBefore(b, e);
            && (if ops == [] then [] else T.HeardBy(b.session.playout, ops[0])) == ReadFor(b, e)
            && (if ops == [] then [] else T.AcceptedBy(b.session.playout, ops[0])) == AudioOf(b, e)
  {
    if e.WriteCallback? {
      WriteOps(b, e);
    } else if e.Text? {
      TextOps(b, e);
    }
  }

  lemma {:induction false} WriteOps(b: Bridge, e: Event)
    requires Fits(b.session) && e.WriteCallback?
    ensures OpsBefore(b, e)
         == if Speaks(b, |e.frame|, e.locked, e.late) then [T.ReadOp(Min(|e.frame|, 640))] else []
  {}

  lemma {:induction false} TextOps(b: Bridge, e: Event)
    requires Fits(b.session) && e.Text?
    ensures OpsBefore(b, e)
         == if Absent(b, e) || Deaf(b, e.local, e.late) then []
            else PlayoutOps(b.session, PeerCommand(Classify(b.session, e.json), e.nowNs))
  {}

  /** Only write callbacks read the playout, and only accepted media texts fill it. */
  lemma {:induction false} HearingSnoc(p: Setup, events: seq<Event>, e: Event)
    ensures var w := Trace(p, events).p; var r := Trace(p, events + [e]).p; var b := After(p, events);
            r.heard == w.heard + ReadFor(b, e) && r.accepted == w.accepted + AudioOf(b, e)
  {
    var b := After(p, events);
    BridgeRunIsSessionRun(p, events);
    HistorySnoc(p, events, e);
    OpsHear(b, e);
    OpsEffect(Trace(p, events).p, OpsBefore(b, e), if FlushOf(b, e).Some? then [T.HarvestOp(8)] else []);
  }

  lemma {:induction false} AudioOverRuns(p: Setup, events: seq<Event>)
    ensures Trace(p, events).p.accepted == Audio(p, events)
    decreases |events|
  {
    if events == [] {
      HistoryStart(p);
    } else {
      var init, e := events[..|events| - 1], events[|events| - 1];
      AudioOverRuns(p, init);
      SplitLast([], events);
      HearingSnoc(p, init, e);
    }
  }

  ghost predicate DownlinkFaithful(p: Setup, injected: seq<int16>, own: seq<int16>, heard: seq<byte>) {
    |own| == |heard| && injected == Combine(p.mixing, own, Mulaw.DecodeAll(heard))
  }

  /** Over every run and for frames of any sizes, what is injected into the call is the mu-law decoding of exactly the
      playout bytes read, in order: alone in replace mode, added with saturation to the call's own samples in mix
      mode. */
  lemma {:induction false} DownlinkOverRuns(p: Setup, events: seq<Event>)
    ensures DownlinkFaithful(p, Injected(p, events), Own(p, events), Trace(p, events).p.heard)
    decreases |events|
  {
    if events == [] {
      HistoryStart(p);
    } else {
      var init, e := events[..|events| - 1], events[|events| - 1];
      DownlinkOverRuns(p, init);
      SplitLast([], events);
      HearingSnoc(p, init, e);
      DownlinkMore(p.mixing, Own(p, init), Trace(p, init).p.heard, Injected(p, init), FrameOf(e),
                   ReadFor(After(p, init), e));
    }
  }

  /** End to end: what the call hears of the agent is the decoding of the audio of the accepted media texts, in order,
      with one label per byte that has left the ring saying whether it was heard or discarded by a clear; the audio
      behind those is still waiting. */
  lemma {:induction false} AgentIsHeard(p: Setup, events: seq<Event>) returns (kept: seq<bool>)
    ensures var audio := Audio(p, events); var s := After(p, events).session;
            && |kept| <= |audio| && |Own(p, events)| == |Select(audio[..|kept|], kept)|
            && Injected(p, events)
                 == Combine(p.mixing, Own(p, events), Mulaw.DecodeAll(Select(audio[..|kept|], kept)))
            && s.playout.data == audio[|kept|..]
            && |kept| == |Own(p, events)| + Trace(p, events).p.discarded
  {
    DownlinkOverRuns(p, events);
    AudioOverRuns(p, events);
    BridgeRunIsSessionRun(p, events);
    kept := AudioAccounted(p.c, AllActs(p, events));
  }

  // ------------------------------------------------------------------------------------------
  // Barge-in
  // ------------------------------------------------------------------------------------------

  /** The operations of `after`, once `before` has happened. */
  function LaterOps(p: Setup, before: seq<Event>, after: seq<Event>): (ops: seq<T.Op>)
    decreases |after|
  {
    if after == [] then []
    else
      var init := after[..|after| - 1];
      LaterOps(p, before, init) + Ops(After(p, before + init), after[|after| - 1])
  }

  lemma {:induction false} AllOpsSnoc(p: Setup, events: seq<Event>, e: Event)
    ensures AllOps(p, events + [e]) == AllOps(p, events) + Ops(After(p, events), e)
  {
    assert (events + [e])[..|events|] == events;
  }

  lemma {:induction false} AllOpsSplit(p: Setup, before: seq<Event>, after: seq<Event>)
    ensures AllOps(p, before + after) == AllOps(p, before) + LaterOps(p, before, after)
    decreases |after|
  {
    if after == [] {
      assert before + after == before;
      assert AllOps(p, before) + [] == AllOps(p, before);
    } else {
      var init, e := after[..|after| - 1], after[|after| - 1];
      AllOpsSplit(p, before, init);
      SplitLast(before, after);
      AllOpsSnoc(p, before + init, e);
      Associate(AllOps(p, before), LaterOps(p, before, init), Ops(After(p, before + init), e));
    }
  }

  predicate Interrupts(b: Bridge, e: Event) {
    e.Text? && !Absent(b, e) && !Deaf(b, e.local, e.late) && Classify(b.session, e.json).BargeIn?
  }

  lemma {:induction false} ClearOps(b: Bridge, e: Event) returns (rest: seq<T.Op>)
    requires Fits(b.session) && Interrupts(b, e)
    ensures Ops(b, e) == [T.ClearOp(64)] + rest
  {
    TextOps(b, e);
    rest := if FlushOf(b, e).Some? then [T.HarvestOp(8)] else [];
  }

  lemma Regroup<X>(a: seq<X>, b: seq<X>, c: seq<X>, d: seq<X>)
    ensures a + (b + c) + d == a + b + (c + d)
  {}

  lemma {:induction false} ClearInRun(p: Setup, before: seq<Event>, e: Event, after: seq<Event>)
    returns (rest: seq<T.Op>)
    requires Interrupts(After(p, before), e)
    ensures AllOps(p, before + [e] + after) == AllOps(p, before) + [T.ClearOp(64)] + rest
  {
    var more := ClearOps(After(p, before), e);
    var later := LaterOps(p, before + [e], after);
    AllOpsSplit(p, before + [e], after);
    AllOpsSnoc(p, before, e);
    rest := more + later;
    Regroup(AllOps(p, before), [T.ClearOp(64)], more, later);
  }

  /** Barge-in over whole bridge runs: after a clear, from the peer or from the module itself, nothing that was accepted
      before it is heard, and no mark accepted before it is acknowledged any more. What is heard and acknowledged later
      is selected, in order, from what was accepted later. */
  lemma {:induction false} BargeInIsClean(p: Setup, before: seq<Event>, e: Event, after: seq<Event>)
    returns (audio: seq<byte>, kept: seq<bool>, marks: seq<string>, acked: seq<bool>)
    requires Interrupts(After(p, before), e)
    ensures var all := before + [e] + after;
            && Audio(p, all) == Audio(p, before) + audio && |kept| <= |audio|
            && Trace(p, all).p.heard == Trace(p, before).p.heard + Select(audio[..|kept|], kept)
            && After(p, all).session.playout.data == audio[|kept|..]
    ensures var all := before + [e] + after; var s := After(p, before).session;
            && Trace(p, all).p.marked == Trace(p, before).p.marked + marks && |acked| <= |marks|
            && AckNames(Trace(p, all).q.pushed)
                 == AckNames(Trace(p, before).q.pushed) + P.Names(s.playout.marks) + Select(marks[..|acked|], acked)
  {
    var all, size := before + [e] + after, RingSize(p);
    var rest := ClearInRun(p, before, e, after);
    PlayoutIsRingRun(p, before);
    PlayoutIsRingRun(p, all);
    AudioOverRuns(p, before);
    AudioOverRuns(p, all);
    BridgeRunIsSessionRun(p, before);
    BridgeRunIsSessionRun(p, all);
    AcksFollowReports(p.c, AllActs(p, before));
    AcksFollowReports(p.c, AllActs(p, all));
    R.ClearForgetsThePast(size, AllOps(p, before), 64, rest);
    ClearReports(size, AllOps(p, before));
    kept := R.BytesConserved(size, rest);
    acked := R.MarksConserved(size, rest);
    var alone := T.Run(T.Begin(size), rest);
    audio, marks := alone.accepted, alone.marked;
  }

  /** A clear reports every pending mark: there is room for all of them. */
  lemma {:induction false} ClearReports(size: nat, ops: seq<T.Op>)
    requires size > 0
    ensures var c := T.Run(T.Begin(size), ops);
            T.Run(T.Begin(size), ops + [T.ClearOp(64)]).reported == c.reported + P.Names(c.p.marks)
  {
    assert (ops + [T.ClearOp(64)])[..|ops|] == ops;
  }
}
