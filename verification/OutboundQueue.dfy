/** rtw_queue.c: a bounded ring of outbound frames that evicts its oldest entry when full. */
module OutboundQueue {
  import opened Sequences
  import Ring

  /** What the queue holds, oldest first, with its two counters. */
  datatype Queue<T> = Queue(items: seq<T>, capacity: nat, drops: nat, enqueued: nat)

  predicate Fits<T>(q: Queue<T>) {
    0 < q.capacity && |q.items| <= q.capacity
  }

  function New<T>(capacity: nat): (q: Queue<T>) {
    Queue([], capacity, 0, 0)
  }

  function Push<T>(q: Queue<T>, x: T): (r: Queue<T>)
    requires Fits(q)
    ensures Fits(r)
  {
    if |q.items| == q.capacity
    then q.(items := q.items[1..] + [x], drops := q.drops + 1, enqueued := q.enqueued + 1)
    else q.(items := q.items + [x], enqueued := q.enqueued + 1)
  }

  function DropHead<T>(q: Queue<T>): (r: Queue<T>)
    requires Fits(q)
    ensures Fits(r)
  {
    if q.items == [] then q else q.(items := q.items[1..])
  }

  function PushAll<T>(q: Queue<T>, xs: seq<T>): (r: Queue<T>)
    requires Fits(q)
    ensures Fits(r) && r.capacity == q.capacity && r.enqueued == q.enqueued + |xs|
    ensures |r.items| <= |q.items| + |xs|
  {
    if xs == [] then q else Push(PushAll(q, xs[..|xs| - 1]), xs[|xs| - 1])
  }

  lemma {:induction false} PushAllAppend<T>(q: Queue<T>, a: seq<T>, b: seq<T>)
    requires Fits(q)
    ensures PushAll(q, a + b) == PushAll(PushAll(q, a), b)
    decreases |b|
  {
    if b == [] {
      assert a + b == a;
    } else {
      PushAllAppend(q, a, b[..|b| - 1]);
      assert (a + b)[..|a + b| - 1] == a + b[..|b| - 1];
    }
  }

  /** The last `n` elements, or all of them. */
  function Last<T>(s: seq<T>, n: nat): (r: seq<T>)
    ensures |r| == Min(n, |s|)
  {
    s[|s| - Min(n, |s|)..]
  }

  /** Whatever is pushed, the queue holds the newest entries. */
  lemma {:induction false} PushAllKeepsLast<T>(q: Queue<T>, xs: seq<T>)
    requires Fits(q)
    ensures PushAll(q, xs).items == Last(q.items + xs, q.capacity)
    decreases |xs|
  {
    if xs == [] {
      assert q.items + xs == q.items;
    } else {
      var n := |xs| - 1;
      PushAllKeepsLast(q, xs[..n]);
      SplitLast(q.items, xs);
      LastSnoc(q.items + xs[..n], xs[n], q.capacity);
    }
  }

  lemma {:induction false} LastSnoc<T>(s: seq<T>, x: T, n: nat)
    requires n > 0
    ensures Last(s + [x], n) == if |s| < n then s + [x] else Last(s, n)[1..] + [x]
    ensures |s| < n ==> Last(s, n) == s
  {}

  // ------------------------------------------------------------------------------------------
  // Whole runs
  // ------------------------------------------------------------------------------------------

  datatype Op<T> = PushOp(x: T) | TakeOp

  /** A queue together with everything that ever went through it: `pushed` in enqueue order, `taken` by the
      consumer, and one label per departed entry (true: taken, false: evicted), in order of departure. */
  datatype Traced<T> = Traced(q: Queue<T>, pushed: seq<T>, taken: seq<T>, fates: seq<bool>)

  function Step<T>(t: Traced<T>, op: Op<T>): (r: Traced<T>)
    requires Fits(t.q)
    ensures Fits(r.q)
  {
    match op
    case PushOp(x) =>
      Traced(Push(t.q, x), t.pushed + [x], t.taken,
             if |t.q.items| == t.q.capacity then t.fates + [false] else t.fates)
    case TakeOp =>
      if t.q.items == [] then t
      else Traced(DropHead(t.q), t.pushed, t.taken + [t.q.items[0]], t.fates + [true])
  }

  function Run<T>(t: Traced<T>, ops: seq<Op<T>>): (r: Traced<T>)
    requires Fits(t.q)
    ensures Fits(r.q)
  {
    if ops == [] then t else Step(Run(t, ops[..|ops| - 1]), ops[|ops| - 1])
  }

  function Begin<T>(capacity: nat): (t: Traced<T>) {
    Traced(New(capacity), [], [], [])
  }

  /** The queue is the history minus a departed prefix, and the labels split that prefix into what was taken
      and what was evicted. */
  ghost predicate Accounted<T>(t: Traced<T>) {
    && Fits(t.q)
    && |t.fates| <= |t.pushed|
    && t.q.items == t.pushed[|t.fates|..]
    && t.taken == Select(t.pushed[..|t.fates|], t.fates)
    && t.q.drops + |t.taken| == |t.fates|
    && t.q.enqueued == |t.pushed|
  }

  /** The head leaves, under either label. */
  lemma {:induction false} Depart<T>(pushed: seq<T>, fates: seq<bool>, fate: bool)
    requires |fates| < |pushed|
    ensures pushed[|fates|..][1..] == pushed[|fates| + 1..]
    ensures Select(pushed[..|fates| + 1], fates + [fate])
         == Select(pushed[..|fates|], fates) + (if fate then [pushed[|fates|]] else [])
  {
    var n := |fates|;
    SelectAppend(pushed[..n], fates, [pushed[n]], [fate]);
    assert pushed[..n + 1] == pushed[..n] + [pushed[n]];
  }

  lemma StepAccounted<T>(t: Traced<T>, op: Op<T>)
    requires Accounted(t)
    ensures Accounted(Step(t, op))
  {
    match op {
      case TakeOp =>
        if t.q.items != [] {
          Depart(t.pushed, t.fates, true);
        }
      case PushOp(x) =>
        PushAccounted(t, x);
    }
  }

  lemma {:induction false} PushAccounted<T>(t: Traced<T>, x: T)
    requires Accounted(t)
    ensures Accounted(Step(t, PushOp(x)))
  {
    var n, pushed := |t.fates|, t.pushed + [x];
    assert pushed[..n] == t.pushed[..n];
    assert pushed[n..] == t.q.items + [x];
    if |t.q.items| == t.q.capacity {
      Depart(pushed, t.fates, false);
      assert (t.q.items + [x])[1..] == t.q.items[1..] + [x];
    }
  }

  lemma {:induction false} RunAccounted<T>(t: Traced<T>, ops: seq<Op<T>>)
    requires Accounted(t)
    ensures Accounted(Run(t, ops))
    decreases |ops|
  {
    if ops != [] {
      RunAccounted(t, ops[..|ops| - 1]);
      StepAccounted(Run(t, ops[..|ops| - 1]), ops[|ops| - 1]);
    }
  }

  /** Every run from an empty queue: nothing is lost, duplicated or reordered except by counted evictions. */
  lemma FifoWithCountedEvictions<T>(capacity: nat, ops: seq<Op<T>>)
    requires 0 < capacity
    ensures Accounted(Run(Begin(capacity), ops))
  {
    RunAccounted(Begin(capacity), ops);
  }

  function Pushes<T>(xs: seq<T>): (ops: seq<Op<T>>)
    ensures |ops| == |xs|
  {
    seq(|xs|, i requires 0 <= i < |xs| => PushOp(xs[i]))
  }

  lemma {:induction false} RunPushes<T>(t: Traced<T>, xs: seq<T>)
    requires Fits(t.q)
    ensures Run(t, Pushes(xs)).q == PushAll(t.q, xs)
    ensures Run(t, Pushes(xs)).pushed == t.pushed + xs
    ensures Run(t, Pushes(xs)).taken == t.taken
    decreases |xs|
  {
    if xs != [] {
      var n := |xs| - 1;
      RunPushes(t, xs[..n]);
      assert Pushes(xs)[..n] == Pushes(xs[..n]);
      assert t.pushed + xs == t.pushed + xs[..n] + [xs[n]];
    }
  }

  // ------------------------------------------------------------------------------------------
  // The ring itself
  // ------------------------------------------------------------------------------------------

  class BoundedQueue<T(0)> {
    const slots: array<T>
    var head: nat
    var tail: nat
    var size: nat
    var drops: nat
    var enqueued: nat
    ghost var view: Queue<T>

    ghost predicate InBounds()
      reads this
    {
      && head < slots.Length
      && size <= slots.Length
      && tail == Ring.Slot(head + size, slots.Length)
    }

    ghost function Contents(): (items: seq<T>)
      requires InBounds()
      reads this, slots
    {
      Ring.Contents(slots[..], head, size)
    }

    ghost predicate Valid()
      reads this, slots
      ensures Valid() ==> Fits(view)
    {
      InBounds() && view == Queue(Contents(), slots.Length, drops, enqueued)
    }

    constructor (capacity: nat)
      requires 0 < capacity
      ensures Valid() && fresh(slots)
      ensures view == New(capacity)
    {
      slots := new T[capacity];
      head, tail, size, drops, enqueued := 0, 0, 0, 0, 0;
      view := New(capacity);
    }

    /** rtw_queue_init: a queue of no capacity is refused. */
    static method Create(capacity: nat) returns (q: Option<BoundedQueue<T>>)
      ensures q.None? <==> capacity == 0
      ensures q.Some? ==> fresh(q.value) && fresh(q.value.slots) && q.value.Valid() && q.value.view == New(capacity)
      ensures q.Some? ==> q.value.slots.Length == capacity && q.value.size == 0
    {
      if capacity == 0 {
        return None;
      }
      var queue := new BoundedQueue(capacity);
      return Some(queue);
    }

    /** Releases the head slot. */
    method Release()
      requires InBounds() && size > 0
      modifies `head, `size
      ensures InBounds() && Contents() == old(Contents())[1..] && size == old(size) - 1
    {
      Ring.Advance(slots[..], head, size);
      head := Ring.Next(head, slots.Length);
      size := size - 1;
    }

    /** Fills the tail slot. */
    method Store(x: T)
      requires InBounds() && size < slots.Length
      modifies `tail, `size, slots
      ensures InBounds() && Contents() == old(Contents()) + [x]
    {
      Ring.Append(slots[..], head, size, x);
      ghost var before := slots[..];
      slots[tail] := x;
      assert slots[..] == before[tail := x];
      tail := Ring.Next(tail, slots.Length);
      size := size + 1;
    }

    method EvictOldest()
      requires Valid() && size == slots.Length
      modifies `head, `size, `drops, `view
      ensures Valid() && size < slots.Length
      ensures view == old(view).(items := old(view).items[1..], drops := old(view).drops + 1)
    {
      ghost var next := view.(items := view.items[1..], drops := view.drops + 1);
      Release();
      drops := drops + 1;
      view := next;
    }

    method Accept(x: T)
      requires Valid() && size < slots.Length
      modifies `tail, `size, `enqueued, `view, slots
      ensures Valid()
      ensures view == old(view).(items := old(view).items + [x], enqueued := old(view).enqueued + 1)
    {
      ghost var next := view.(items := view.items + [x], enqueued := view.enqueued + 1);
      Store(x);
      enqueued := enqueued + 1;
      view := next;
    }

    method Enqueue(x: T)
      requires Valid()
      modifies this, slots
      ensures Valid() && view == Push(old(view), x)
    {
      if size == slots.Length {
        EvictOldest();
      }
      Accept(x);
    }

    method Peek() returns (r: Option<T>)
      requires Valid()
      ensures r == if view.items == [] then None else Some(view.items[0])
    {
      if size == 0 {
        return None;
      }
      Ring.Advance(slots[..], head, size);
      return Some(slots[head]);
    }

    method TakeHead()
      requires Valid() && size > 0
      modifies `head, `size, `view
      ensures Valid() && old(view).items != [] && view == old(view).(items := old(view).items[1..])
    {
      ghost var items := view.items;
      assert items == Contents() && |items| == size;
      Release();
      view := Queue(Contents(), slots.Length, drops, enqueued);
    }

    method Drop() returns (ok: bool)
      requires Valid()
      modifies `head, `size, `view
      ensures Valid() && view == DropHead(old(view))
      ensures ok == (old(view).items != [])
    {
      assert |view.items| == size;
      if size == 0 {
        return false;
      }
      TakeHead();
      return true;
    }

    method Pop() returns (r: Option<T>)
      requires Valid()
      modifies `head, `size, `view
      ensures Valid() && view == DropHead(old(view))
      ensures r == if old(view).items == [] then None else Some(old(view).items[0])
    {
      r := Peek();
      var _ := Drop();
    }
  }
}
