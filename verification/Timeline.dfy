/** The reference the playout ring is measured against: one ever-growing stream of accepted bytes, a cursor into
    it, and marks pinned to absolute positions of that stream. */
module Timeline {
  import opened Sequences
  import opened Playout

  datatype Op = WriteOp(data: seq<byte>) | ReadOp(maxLen: nat) | MarkOp(name: string)
              | HarvestOp(maxOut: nat) | ClearOp(maxOut: nat)

  // ------------------------------------------------------------------------------------------
  // Runs of the ring, with what went in and what came out
  // ------------------------------------------------------------------------------------------

  /** `discarded` counts bytes thrown away by clears, `overLimit` marks removed without being reported. */
  datatype Played = Played(p: Buffer, accepted: seq<byte>, heard: seq<byte>, discarded: nat,
                           marked: seq<string>, reported: seq<string>, overLimit: nat)

  function Apply(p: Buffer, op: Op): (r: Buffer)
    requires Fits(p)
    ensures Fits(r)
  {
    match op
    case WriteOp(data) => Write(p, data)
    case ReadOp(maxLen) => Read(p, maxLen)
    case MarkOp(name) => AddMark(p, name)
    case HarvestOp(_) => Harvest(p)
    case ClearOp(_) => Clear(p)
  }

  function AcceptedBy(p: Buffer, op: Op): (r: seq<byte>) {
    if op.WriteOp? && Accepts(p, op.data) then op.data else []
  }

  function HeardBy(p: Buffer, op: Op): (r: seq<byte>) {
    if op.ReadOp? then p.data[..Readable(p, op.maxLen)] else []
  }

  function MarkedBy(p: Buffer, op: Op): (r: seq<string>) {
    if op.MarkOp? && |p.marks| < 64 then [Truncate(op.name, 128)] else []
  }

  function ReportedBy(p: Buffer, op: Op): (r: seq<string>) {
    match op
    case HarvestOp(maxOut) => Harvested(p, maxOut)
    case ClearOp(maxOut) => Flushed(p, maxOut)
    case _ => []
  }

  function DiscardedBy(p: Buffer, op: Op): (n: nat) {
    if op.ClearOp? then |p.data| else 0
  }

  function OverLimitBy(p: Buffer, op: Op): (n: nat) {
    match op
    case HarvestOp(maxOut) => |Done(p.marks)| - Min(maxOut, |Done(p.marks)|)
    case ClearOp(maxOut) => |p.marks| - Min(maxOut, |p.marks|)
    case _ => 0
  }

  function Step(c: Played, op: Op): (r: Played)
    requires Fits(c.p)
    ensures Fits(r.p)
  {
    Played(Apply(c.p, op), c.accepted + AcceptedBy(c.p, op), c.heard + HeardBy(c.p, op),
           c.discarded + DiscardedBy(c.p, op),
           c.marked + MarkedBy(c.p, op), c.reported + ReportedBy(c.p, op), c.overLimit + OverLimitBy(c.p, op))
  }

  function Run(c: Played, ops: seq<Op>): (r: Played)
    requires Fits(c.p)
    ensures Fits(r.p)
  {
    if ops == [] then c else Step(Run(c, ops[..|ops| - 1]), ops[|ops| - 1])
  }

  function Begin(capacity: nat): (c: Played) {
    Played(New(capacity), [], [], 0, [], [], 0)
  }

  lemma {:induction false} RunSnoc(c: Played, ops: seq<Op>, op: Op)
    requires Fits(c.p)
    ensures Run(c, ops + [op]) == Step(Run(c, ops), op)
  {
    assert (ops + [op])[..|ops|] == ops;
  }

  lemma {:induction false} RunAppend(c: Played, a: seq<Op>, b: seq<Op>)
    requires Fits(c.p)
    ensures Run(c, a + b) == Run(Run(c, a), b)
    decreases |b|
  {
    if b == [] {
      assert a + b == a;
    } else {
      var init, last := b[..|b| - 1], b[|b| - 1];
      RunAppend(c, a, init);
      SplitLast(a, b);
      RunSnoc(c, a + init, last);
      RunSnoc(Run(c, a), init, last);
    }
  }

  // ------------------------------------------------------------------------------------------
  // The reference machine
  // ------------------------------------------------------------------------------------------

  datatype Pin = Pin(name: string, pos: nat)

  /** `kept` labels each stream byte before the cursor: true if it was read, false if a clear discarded it.
      `acked` labels each mark that has left: true if its name was reported, false if it exceeded the limit. */
  datatype Line = Line(capacity: nat, stream: seq<byte>, cursor: nat, heard: seq<byte>, kept: seq<bool>,
                       pins: seq<Pin>, marked: seq<string>, reported: seq<string>, acked: seq<bool>)

  function PinNames(pins: seq<Pin>): (r: seq<string>)
    ensures |r| == |pins|
  {
    seq(|pins|, i requires 0 <= i < |pins| => pins[i].name)
  }

  /** Names of the marks all of whose preceding audio lies before the cursor. */
  function Due(pins: seq<Pin>, cursor: nat): (r: seq<string>)
    ensures |r| <= |pins|
  {
    if pins == [] then []
    else
      var n := |pins| - 1;
      Due(pins[..n], cursor) + (if pins[n].pos <= cursor then [pins[n].name] else [])
  }

  function NotDue(pins: seq<Pin>, cursor: nat): (r: seq<Pin>) {
    if pins == [] then []
    else
      var n := |pins| - 1;
      NotDue(pins[..n], cursor) + (if pins[n].pos <= cursor then [] else [pins[n]])
  }

  /** Labels for `n` departing marks of which at most `limit` are reported. */
  function Labels(n: nat, limit: nat): (r: seq<bool>)
    ensures |r| == n
  {
    seq(Min(limit, n), _ => true) + seq(n - Min(limit, n), _ => false)
  }

  function LineStepMark(t: Line, name: string): (r: Line) {
    if |t.pins| < 64 then
      var s := Truncate(name, 128);
      t.(pins := t.pins + [Pin(s, |t.stream|)], marked := t.marked + [s])
    else t
  }

  function LineStep(t: Line, op: Op): (r: Line)
    requires t.cursor <= |t.stream|
    ensures r.cursor <= |r.stream|
  {
    match op
    case WriteOp(data) =>
      if data == [] || |t.stream| - t.cursor + |data| <= t.capacity then t.(stream := t.stream + data) else t
    case ReadOp(maxLen) =>
      var n := Min(maxLen, |t.stream| - t.cursor);
      t.(cursor := t.cursor + n, heard := t.heard + t.stream[t.cursor..t.cursor + n],
         kept := t.kept + seq(n, _ => true))
    case MarkOp(name) => LineStepMark(t, name)
    case HarvestOp(maxOut) =>
      var due := Due(t.pins, t.cursor);
      t.(pins := NotDue(t.pins, t.cursor), reported := t.reported + First(due, maxOut),
         acked := t.acked + Labels(|due|, maxOut))
    case ClearOp(maxOut) =>
      var n := |t.stream| - t.cursor;
      t.(cursor := |t.stream|, kept := t.kept + seq(n, _ => false), pins := [],
         reported := t.reported + First(PinNames(t.pins), maxOut),
         acked := t.acked + Labels(|t.pins|, maxOut))
  }

  function LineRun(t: Line, ops: seq<Op>): (r: Line)
    requires t.cursor <= |t.stream|
    ensures r.cursor <= |r.stream|
  {
    if ops == [] then t else LineStep(LineRun(t, ops[..|ops| - 1]), ops[|ops| - 1])
  }

  function LineBegin(capacity: nat): (t: Line) {
    Line(capacity, [], 0, [], [], [], [], [], [])
  }

  // ------------------------------------------------------------------------------------------
  // What the reference machine keeps
  // ------------------------------------------------------------------------------------------

  ghost predicate PinsSorted(t: Line) {
    && (forall i, j :: 0 <= i < j < |t.pins| ==> t.pins[i].pos <= t.pins[j].pos)
    && (forall i :: 0 <= i < |t.pins| ==> t.pins[i].pos <= |t.stream|)
  }

  /** Every byte before the cursor was read or discarded, once; reads are the kept ones in stream order. */
  ghost predicate BytesAccounted(t: Line) {
    && t.cursor <= |t.stream|
    && |t.kept| == t.cursor
    && t.heard == Select(t.stream[..t.cursor], t.kept)
  }

  /** Every accepted mark is still pinned, was reported, or fell beyond a harvest limit, once; reports are in
      order of acceptance. */
  ghost predicate MarksAccounted(t: Line) {
    && |t.acked| + |t.pins| == |t.marked|
    && PinNames(t.pins) == t.marked[|t.acked|..]
    && t.reported == Select(t.marked[..|t.acked|], t.acked)
  }

  lemma {:induction false} SelectMore<T>(s: seq<T>, keep: seq<bool>, more: seq<bool>)
    requires |keep| + |more| <= |s|
    ensures Select(s[..|keep| + |more|], keep + more)
         == Select(s[..|keep|], keep) + Select(s[|keep|..|keep| + |more|], more)
  {
    SelectAppend(s[..|keep|], keep, s[|keep|..|keep| + |more|], more);
    assert s[..|keep| + |more|] == s[..|keep|] + s[|keep|..|keep| + |more|];
  }

  lemma {:induction false} SelectLabels<T>(s: seq<T>, limit: nat)
    ensures Select(s, Labels(|s|, limit)) == First(s, limit)
  {
    var k := Min(limit, |s|);
    SelectConstant(s[..k], true);
    SelectConstant(s[k..], false);
    SelectAppend(s[..k], seq(k, _ => true), s[k..], seq(|s| - k, _ => false));
    assert s == s[..k] + s[k..];
  }

  /** The cursor moves over `n` bytes, all read or all discarded. */
  lemma {:induction false} BytesDepart(t: Line, n: nat, read: bool)
    requires BytesAccounted(t) && t.cursor + n <= |t.stream|
    ensures Select(t.stream[..t.cursor + n], t.kept + seq(n, _ => read))
         == t.heard + if read then t.stream[t.cursor..t.cursor + n] else []
  {
    SelectUniform(t.stream, t.kept, n, read);
  }

  lemma {:induction false} SelectUniform<T>(s: seq<T>, keep: seq<bool>, n: nat, same: bool)
    requires |keep| + n <= |s|
    ensures Select(s[..|keep| + n], keep + seq(n, _ => same))
         == Select(s[..|keep|], keep) + if same then s[|keep|..|keep| + n] else []
  {
    SelectMore(s, keep, seq(n, _ => same));
    SelectConstant(s[|keep|..|keep| + n], same);
  }

  lemma {:induction false} BytesStep(t: Line, op: Op)
    requires BytesAccounted(t)
    ensures BytesAccounted(LineStep(t, op))
  {
    match op {
      case WriteOp(data) =>
        assert (t.stream + data)[..t.cursor] == t.stream[..t.cursor];
      case ReadOp(maxLen) =>
        BytesDepart(t, Min(maxLen, |t.stream| - t.cursor), true);
      case ClearOp(_) =>
        BytesDepart(t, |t.stream| - t.cursor, false);
      case MarkOp(_) =>
      case HarvestOp(_) =>
    }
  }

  lemma {:induction false} AllDue(pins: seq<Pin>, cursor: nat)
    requires forall i :: 0 <= i < |pins| ==> pins[i].pos <= cursor
    ensures Due(pins, cursor) == PinNames(pins) && NotDue(pins, cursor) == []
    decreases |pins|
  {
    if pins != [] {
      var n := |pins| - 1;
      AllDue(pins[..n], cursor);
      assert PinNames(pins) == PinNames(pins[..n]) + [pins[n].name];
    }
  }

  /** Positions never decrease along the list, so the due marks are a prefix of it. */
  lemma {:induction false} DueIsPrefix(pins: seq<Pin>, cursor: nat)
    requires forall i, j :: 0 <= i < j < |pins| ==> pins[i].pos <= pins[j].pos
    ensures Due(pins, cursor) == PinNames(pins)[..|Due(pins, cursor)|]
    ensures NotDue(pins, cursor) == pins[|Due(pins, cursor)|..]
    decreases |pins|
  {
    if pins == [] {
    } else if pins[|pins| - 1].pos <= cursor {
      AllDue(pins, cursor);
    } else {
      var n := |pins| - 1;
      DueIsPrefix(pins[..n], cursor);
      var k := |Due(pins[..n], cursor)|;
      assert Due(pins, cursor) == Due(pins[..n], cursor);
      assert PinNames(pins)[..k] == PinNames(pins[..n])[..k];
      assert pins[k..] == pins[..n][k..] + [pins[n]];
    }
  }

  /** The first `k` marks leave, at most `limit` of them reported. */
  lemma {:induction false} MarksDepart(t: Line, k: nat, limit: nat)
    requires MarksAccounted(t) && k <= |t.pins|
    ensures PinNames(t.pins[k..]) == t.marked[|t.acked| + k..]
    ensures t.reported + First(PinNames(t.pins)[..k], limit)
         == Select(t.marked[..|t.acked| + k], t.acked + Labels(k, limit))
  {
    NamesDepart(t.pins, t.marked, |t.acked|, k);
    SelectMore(t.marked, t.acked, Labels(k, limit));
    SelectLabels(t.marked[|t.acked|..|t.acked| + k], limit);
  }

  lemma {:induction false} NamesDepart(pins: seq<Pin>, marked: seq<string>, n: nat, k: nat)
    requires n + |pins| == |marked| && PinNames(pins) == marked[n..] && k <= |pins|
    ensures PinNames(pins)[..k] == marked[n..n + k]
    ensures PinNames(pins[k..]) == marked[n + k..]
  {
    assert PinNames(pins[k..]) == PinNames(pins)[k..];
  }

  lemma {:induction false} MarksAdd(t: Line, name: string)
    requires PinsSorted(t) && MarksAccounted(t)
    ensures PinsSorted(LineStepMark(t, name)) && MarksAccounted(LineStepMark(t, name))
  {
    if |t.pins| < 64 {
      var r := LineStepMark(t, name);
      assert PinNames(r.pins) == PinNames(t.pins) + [Truncate(name, 128)];
      assert r.marked[..|t.acked|] == t.marked[..|t.acked|];
    }
  }

  lemma {:induction false} MarksHarvest(t: Line, maxOut: nat)
    requires t.cursor <= |t.stream| && PinsSorted(t) && MarksAccounted(t)
    ensures PinsSorted(LineStep(t, HarvestOp(maxOut))) && MarksAccounted(LineStep(t, HarvestOp(maxOut)))
  {
    DueIsPrefix(t.pins, t.cursor);
    MarksDepart(t, |Due(t.pins, t.cursor)|, maxOut);
  }

  lemma {:induction false} MarksClear(t: Line, maxOut: nat)
    requires t.cursor <= |t.stream| && MarksAccounted(t)
    ensures PinsSorted(LineStep(t, ClearOp(maxOut))) && MarksAccounted(LineStep(t, ClearOp(maxOut)))
  {
    MarksDepart(t, |t.pins|, maxOut);
    assert PinNames(t.pins)[..|t.pins|] == PinNames(t.pins);
    assert PinNames([]) == PinNames(t.pins[|t.pins|..]);
  }

  lemma {:induction false} MarksStep(t: Line, op: Op)
    requires t.cursor <= |t.stream| && PinsSorted(t) && MarksAccounted(t)
    ensures PinsSorted(LineStep(t, op)) && MarksAccounted(LineStep(t, op))
  {
    match op {
      case MarkOp(name) => MarksAdd(t, name);
      case HarvestOp(maxOut) => MarksHarvest(t, maxOut);
      case ClearOp(maxOut) => MarksClear(t, maxOut);
      case WriteOp(_) =>
      case ReadOp(_) =>
    }
  }
}
