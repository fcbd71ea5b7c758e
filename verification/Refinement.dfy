/** The playout ring refines the reference timeline, and what that says about every run of it. */
module Refinement {
  import opened Sequences
  import opened Playout
  import opened Timeline

  /** Absolute positions seen from the cursor: what the ring stores. */
  function Relative(pins: seq<Pin>, cursor: nat): (r: seq<Mark>)
    ensures |r| == |pins|
  {
    seq(|pins|, i requires 0 <= i < |pins| =>
      Mark(pins[i].name, Ahead(pins[i], cursor)))
  }

  /** Stream bytes between the cursor and a mark. */
  function Ahead(p: Pin, cursor: nat): (n: nat) {
    if p.pos <= cursor then 0 else p.pos - cursor
  }

  ghost predicate Refines(c: Played, t: Line) {
    && t.cursor <= |t.stream|
    && c.p.capacity == t.capacity
    && c.p.data == t.stream[t.cursor..]
    && c.p.marks == Relative(t.pins, t.cursor)
    && c.accepted == t.stream && c.heard == t.heard
    && c.marked == t.marked && c.reported == t.reported
    && c.p.enqueuedBytes == |t.stream| && c.p.dequeuedBytes == |t.heard|
  }

  lemma RelativeSnoc(pins: seq<Pin>, p: Pin, cursor: nat)
    ensures Relative(pins + [p], cursor) == Relative(pins, cursor) + [Mark(p.name, Ahead(p, cursor))]
  {}

  lemma {:induction false} FilterSnoc(marks: seq<Mark>, m: Mark)
    ensures Done(marks + [m]) == Done(marks) + if m.bytesAfter == 0 then [m.name] else []
    ensures Pending(marks + [m]) == Pending(marks) + if m.bytesAfter == 0 then [] else [m]
  {
    assert (marks + [m])[..|marks|] == marks;
  }

  lemma {:induction false} RelativeFilter(pins: seq<Pin>, cursor: nat)
    ensures Done(Relative(pins, cursor)) == Due(pins, cursor)
    ensures Pending(Relative(pins, cursor)) == Relative(NotDue(pins, cursor), cursor)
    decreases |pins|
  {
    if pins != [] {
      var n := |pins| - 1;
      RelativeFilter(pins[..n], cursor);
      RelativeSnoc(pins[..n], pins[n], cursor);
      RelativeSnoc(NotDue(pins[..n], cursor), pins[n], cursor);
      assert pins[..n] + [pins[n]] == pins;
      FilterSnoc(Relative(pins[..n], cursor), Mark(pins[n].name, Ahead(pins[n], cursor)));
    }
  }

  lemma RelativeNames(pins: seq<Pin>, cursor: nat)
    ensures Names(Relative(pins, cursor)) == PinNames(pins)
  {}

  lemma RelativeAdvance(pins: seq<Pin>, cursor: nat, n: nat)
    ensures Advance(Relative(pins, cursor), n) == Relative(pins, cursor + n)
  {}

  lemma WriteRefines(c: Played, t: Line, data: seq<byte>)
    requires Fits(c.p) && Refines(c, t)
    ensures Refines(Step(c, WriteOp(data)), LineStep(t, WriteOp(data)))
  {
    if data == [] {
      assert t.stream + data == t.stream && c.accepted + data == c.accepted;
    } else {
      assert (t.stream + data)[t.cursor..] == t.stream[t.cursor..] + data;
    }
  }

  lemma ReadRefines(c: Played, t: Line, maxLen: nat)
    requires Fits(c.p) && Refines(c, t)
    ensures Refines(Step(c, ReadOp(maxLen)), LineStep(t, ReadOp(maxLen)))
  {
    var n := Min(maxLen, |t.stream| - t.cursor);
    RelativeAdvance(t.pins, t.cursor, n);
    assert t.stream[t.cursor..][n..] == t.stream[t.cursor + n..];
    assert t.stream[t.cursor..][..n] == t.stream[t.cursor..t.cursor + n];
  }

  lemma MarkRefines(c: Played, t: Line, name: string)
    requires Fits(c.p) && Refines(c, t)
    ensures Refines(Step(c, MarkOp(name)), LineStep(t, MarkOp(name)))
  {
    if |t.pins| < 64 {
      var s := Truncate(name, 128);
      assert Relative(t.pins + [Pin(s, |t.stream|)], t.cursor)
          == Relative(t.pins, t.cursor) + [Mark(s, |t.stream| - t.cursor)];
    }
  }

  lemma {:induction false} StepRefines(c: Played, t: Line, op: Op)
    requires Fits(c.p) && Refines(c, t)
    ensures Refines(Step(c, op), LineStep(t, op))
  {
    match op {
      case WriteOp(data) => WriteRefines(c, t, data);
      case ReadOp(maxLen) => ReadRefines(c, t, maxLen);
      case MarkOp(name) => MarkRefines(c, t, name);
      case HarvestOp(maxOut) => RelativeFilter(t.pins, t.cursor);
      case ClearOp(maxOut) => RelativeNames(t.pins, t.cursor);
    }
  }

  /** Every accepted byte was read, discarded by a clear or is buffered; every accepted mark was reported, removed
      beyond a limit or is pending. */
  ghost predicate Balanced(c: Played) {
    && |c.accepted| == |c.heard| + c.discarded + |c.p.data|
    && |c.marked| == |c.reported| + c.overLimit + |c.p.marks|
  }

  lemma {:induction false} StepBalanced(c: Played, op: Op)
    requires Fits(c.p) && Balanced(c)
    ensures Balanced(Step(c, op))
  {}

  ghost predicate Timed(c: Played, t: Line) {
    Fits(c.p) && Refines(c, t) && PinsSorted(t) && BytesAccounted(t) && MarksAccounted(t) && Balanced(c)
  }

  lemma {:induction false} RunTimed(c: Played, t: Line, ops: seq<Op>)
    requires Timed(c, t)
    ensures Timed(Run(c, ops), LineRun(t, ops))
    decreases |ops|
  {
    if ops != [] {
      var init, op := ops[..|ops| - 1], ops[|ops| - 1];
      RunTimed(c, t, init);
      var c', t' := Run(c, init), LineRun(t, init);
      StepRefines(c', t', op);
      StepBalanced(c', op);
      BytesStep(t', op);
      MarksStep(t', op);
    }
  }

  /** Every run of the ring is a run of the reference machine: same bytes out, same marks reported, and each stored
      counter is the distance from the cursor to the mark's absolute position. */
  lemma RingRefinesTimeline(capacity: nat, ops: seq<Op>)
    requires 0 < capacity
    ensures Timed(Run(Begin(capacity), ops), LineRun(LineBegin(capacity), ops))
  {
    assert Relative([], 0) == [];
    RunTimed(Begin(capacity), LineBegin(capacity), ops);
  }

  /** In every reachable state the counters are sorted and bounded by the fill level, and a harvest takes off the
      front of the list exactly the marks whose counter is zero. */
  lemma {:induction false} HarvestCutsPrefix(capacity: nat, ops: seq<Op>)
    requires 0 < capacity
    ensures var p := Run(Begin(capacity), ops).p; var k := |Done(p.marks)|;
            && (forall i, j :: 0 <= i < j < |p.marks| ==> p.marks[i].bytesAfter <= p.marks[j].bytesAfter)
            && (forall i :: 0 <= i < |p.marks| ==> p.marks[i].bytesAfter <= |p.data|)
            && k <= |p.marks|
            && Done(p.marks) == Names(p.marks)[..k] && Pending(p.marks) == p.marks[k..]
            && (forall i :: 0 <= i < |p.marks| ==> (i < k <==> p.marks[i].bytesAfter == 0))
  {
    RingRefinesTimeline(capacity, ops);
    var t := LineRun(LineBegin(capacity), ops);
    var p := Run(Begin(capacity), ops).p;
    CutAt(p.marks, t.pins, t.cursor);
  }

  lemma {:induction false} CutAt(marks: seq<Mark>, pins: seq<Pin>, cursor: nat)
    requires marks == Relative(pins, cursor)
    requires forall i, j :: 0 <= i < j < |pins| ==> pins[i].pos <= pins[j].pos
    ensures var k := |Done(marks)|;
            && k <= |marks| && Done(marks) == Names(marks)[..k] && Pending(marks) == marks[k..]
            && (forall i :: 0 <= i < |marks| ==> (i < k <==> marks[i].bytesAfter == 0))
  {
    RelativeFilter(pins, cursor);
    DueIsPrefix(pins, cursor);
    RelativeNames(pins, cursor);
    assert Relative(pins[|Due(pins, cursor)|..], cursor) == marks[|Due(pins, cursor)|..];
    CutCharacterised(pins, cursor);
  }

  lemma {:induction false} CutCharacterised(pins: seq<Pin>, cursor: nat)
    requires forall i, j :: 0 <= i < j < |pins| ==> pins[i].pos <= pins[j].pos
    ensures forall i :: 0 <= i < |pins| ==> (i < |Due(pins, cursor)| <==> pins[i].pos <= cursor)
    decreases |pins|
  {
    if pins != [] {
      var n := |pins| - 1;
      if pins[n].pos <= cursor {
        AllDue(pins, cursor);
      } else {
        CutCharacterised(pins[..n], cursor);
      }
    }
  }

  /** Conservation: what was accepted was read, discarded by a clear, or is still buffered; and the bytes read
      are the accepted ones, in order, with the discarded ones left out. */
  lemma BytesConserved(capacity: nat, ops: seq<Op>) returns (kept: seq<bool>)
    requires 0 < capacity
    ensures var c := Run(Begin(capacity), ops);
            && |kept| <= |c.accepted|
            && c.heard == Select(c.accepted[..|kept|], kept)
            && c.p.data == c.accepted[|kept|..]
            && c.p.enqueuedBytes == |c.accepted| && c.p.dequeuedBytes == |c.heard|
            && |kept| == |c.heard| + c.discarded
            && c.p.enqueuedBytes == c.p.dequeuedBytes + c.discarded + |c.p.data|
  {
    RingRefinesTimeline(capacity, ops);
    kept := LineRun(LineBegin(capacity), ops).kept;
  }

  /** Mark accounting: reports follow acceptance order, no mark is reported twice, and every accepted mark is
      reported, beyond a limit, or still pending. */
  lemma MarksConserved(capacity: nat, ops: seq<Op>) returns (acked: seq<bool>)
    requires 0 < capacity
    ensures var c := Run(Begin(capacity), ops);
            && |acked| <= |c.marked|
            && c.reported == Select(c.marked[..|acked|], acked)
            && Names(c.p.marks) == c.marked[|acked|..]
            && |acked| == |c.reported| + c.overLimit
  {
    RingRefinesTimeline(capacity, ops);
    var t := LineRun(LineBegin(capacity), ops);
    RelativeNames(t.pins, t.cursor);
    acked := t.acked;
  }

  // ------------------------------------------------------------------------------------------
  // Barge-in
  // ------------------------------------------------------------------------------------------

  ghost predicate SameStore(p: Buffer, q: Buffer) {
    p.capacity == q.capacity && p.data == q.data && p.marks == q.marks
  }

  /** A blank ring stands for the future of any ring with the same store. */
  lemma {:induction false} SameStoreSameOutputs(c: Played, d: Played, ops: seq<Op>)
    requires Fits(c.p) && Fits(d.p) && SameStore(c.p, d.p) && Blank(d)
    ensures Extends(c, Run(d, ops), Run(c, ops))
    decreases |ops|
  {
    if ops == [] {
      BlankExtends(c, d);
    } else {
      var init, op := ops[..|ops| - 1], ops[|ops| - 1];
      SameStoreSameOutputs(c, d, init);
      ExtendsStep(c, Run(d, init), Run(c, init), op);
    }
  }

  /** Nothing has gone in or come out yet. */
  predicate Blank(d: Played) {
    d.accepted == [] && d.heard == [] && d.marked == [] && d.reported == []
  }

  /** `r` has the store of `d`, and has taken in and given out what `c` had and then what `d` has. */
  ghost predicate Extends(c: Played, d: Played, r: Played) {
    && SameStore(r.p, d.p)
    && r.accepted == c.accepted + d.accepted && r.heard == c.heard + d.heard
    && r.marked == c.marked + d.marked && r.reported == c.reported + d.reported
  }

  lemma {:induction false} BlankExtends(c: Played, d: Played)
    requires SameStore(c.p, d.p) && Blank(d)
    ensures Extends(c, d, c)
  {
    assert c.accepted + [] == c.accepted && c.heard + [] == c.heard;
    assert c.marked + [] == c.marked && c.reported + [] == c.reported;
  }

  lemma {:induction false} ExtendsStep(c: Played, d: Played, r: Played, op: Op)
    requires Fits(d.p) && Fits(r.p) && Extends(c, d, r)
    ensures Extends(c, Step(d, op), Step(r, op))
  {
    SameStoreStep(r, d, op);
    Associate(c.accepted, d.accepted, AcceptedBy(d.p, op));
    Associate(c.heard, d.heard, HeardBy(d.p, op));
    Associate(c.marked, d.marked, MarkedBy(d.p, op));
    Associate(c.reported, d.reported, ReportedBy(d.p, op));
  }

  lemma {:induction false} SameStoreStep(c: Played, d: Played, op: Op)
    requires Fits(c.p) && Fits(d.p) && SameStore(c.p, d.p)
    ensures SameStore(Step(c, op).p, Step(d, op).p)
    ensures HeardBy(c.p, op) == HeardBy(d.p, op) && ReportedBy(c.p, op) == ReportedBy(d.p, op)
    ensures AcceptedBy(c.p, op) == AcceptedBy(d.p, op) && MarkedBy(c.p, op) == MarkedBy(d.p, op)
  {}

  /** No byte written and no mark queued before a clear is heard or reported after it: from then on the ring behaves
      as one created empty. */
  lemma {:induction false} ClearForgetsThePast(capacity: nat, before: seq<Op>, maxOut: nat, after: seq<Op>)
    requires 0 < capacity
    ensures var cleared := Run(Begin(capacity), before + [ClearOp(maxOut)]);
            var whole := Run(Begin(capacity), before + [ClearOp(maxOut)] + after);
            var alone := Run(Begin(capacity), after);
            Extends(cleared, alone, whole) && Dropped(Run(Begin(capacity), before), cleared)
  {
    var upTo := before + [ClearOp(maxOut)];
    ClearEmpties(capacity, before, maxOut);
    RunAppend(Begin(capacity), upTo, after);
    SameStoreSameOutputs(Run(Begin(capacity), upTo), Begin(capacity), after);
  }

  /** A clear takes in no audio and no mark, and lets nothing be heard. */
  ghost predicate Dropped(c: Played, r: Played) {
    r.heard == c.heard && r.accepted == c.accepted && r.marked == c.marked
  }

  lemma {:induction false} ClearEmpties(capacity: nat, before: seq<Op>, maxOut: nat)
    requires 0 < capacity
    ensures var cleared := Run(Begin(capacity), before + [ClearOp(maxOut)]);
            SameStore(cleared.p, New(capacity)) && Dropped(Run(Begin(capacity), before), cleared)
  {
    RunKeepsCapacity(Begin(capacity), before);
    var c := Run(Begin(capacity), before);
    assert (before + [ClearOp(maxOut)])[..|before|] == before;
    assert Run(Begin(capacity), before + [ClearOp(maxOut)]) == Step(c, ClearOp(maxOut));
    assert c.heard + [] == c.heard && c.accepted + [] == c.accepted && c.marked + [] == c.marked;
  }

  function Clears(ops: seq<Op>): (n: nat) {
    if ops == [] then 0 else Clears(ops[..|ops| - 1]) + if ops[|ops| - 1].ClearOp? then 1 else 0
  }

  lemma {:induction false} ClearsCounted(capacity: nat, ops: seq<Op>)
    requires 0 < capacity
    ensures Run(Begin(capacity), ops).p.clearCount == Clears(ops)
    decreases |ops|
  {
    if ops != [] {
      ClearsCounted(capacity, ops[..|ops| - 1]);
    }
  }

  lemma {:induction false} RunKeepsCapacity(c: Played, ops: seq<Op>)
    requires Fits(c.p)
    ensures Run(c, ops).p.capacity == c.p.capacity
    decreases |ops|
  {
    if ops != [] {
      RunKeepsCapacity(c, ops[..|ops| - 1]);
    }
  }
}
