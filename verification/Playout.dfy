/** rtw_playout.c: the ring of audio waiting to be injected into the call, and the marks queued behind it. */
module Playout {
  import opened Sequences
  import Ring

  const MARK_MAX: nat := 64
  const MARK_NAME_LEN: nat := 128

  /** `bytesAfter` counts the buffered bytes still ahead of the mark. */
  datatype Mark = Mark(name: string, bytesAfter: nat)

  datatype Buffer = Buffer(capacity: nat, data: seq<byte>, marks: seq<Mark>,
                           enqueuedBytes: nat, dequeuedBytes: nat, clearCount: nat)

  predicate Fits(p: Buffer) {
    0 < p.capacity && |p.data| <= p.capacity && |p.marks| <= MARK_MAX
  }

  function New(capacity: nat): (p: Buffer) {
    Buffer(capacity, [], [], 0, 0, 0)
  }

  /** A C string copied into a buffer of `cap` bytes by snprintf. */
  function Truncate(s: string, cap: nat): (r: string)
    requires 0 < cap
    ensures r <= s && |r| == Min(|s|, cap - 1)
    ensures |s| < cap ==> r == s
  {
    if |s| < cap then s else s[..cap - 1]
  }

  predicate Accepts(p: Buffer, data: seq<byte>) {
    data == [] || |p.data| + |data| <= p.capacity
  }

  function Write(p: Buffer, data: seq<byte>): (r: Buffer)
    requires Fits(p)
    ensures Fits(r)
  {
    if Accepts(p, data) && data != []
    then p.(data := p.data + data, enqueuedBytes := p.enqueuedBytes + |data|)
    else p
  }

  function Advance(marks: seq<Mark>, n: nat): (r: seq<Mark>)
    ensures |r| == |marks|
  {
    seq(|marks|, i requires 0 <= i < |marks| =>
      marks[i].(bytesAfter := if marks[i].bytesAfter >= n then marks[i].bytesAfter - n else 0))
  }

  function Readable(p: Buffer, maxLen: nat): (n: nat)
    ensures n <= |p.data| && n <= maxLen
  {
    Min(maxLen, |p.data|)
  }

  function Read(p: Buffer, maxLen: nat): (r: Buffer)
    requires Fits(p)
    ensures Fits(r)
  {
    var n := Readable(p, maxLen);
    p.(data := p.data[n..], dequeuedBytes := p.dequeuedBytes + n, marks := Advance(p.marks, n))
  }

  function AddMark(p: Buffer, name: string): (r: Buffer)
    requires Fits(p)
    ensures Fits(r)
  {
    if |p.marks| >= MARK_MAX then p
    else p.(marks := p.marks + [Mark(Truncate(name, MARK_NAME_LEN), |p.data|)])
  }

  function Pending(marks: seq<Mark>): (r: seq<Mark>)
    ensures |r| <= |marks|
  {
    if marks == [] then []
    else
      var n := |marks| - 1;
      Pending(marks[..n]) + (if marks[n].bytesAfter == 0 then [] else [marks[n]])
  }

  /** Names of the marks whose audio has all been read, oldest first. */
  function Done(marks: seq<Mark>): (r: seq<string>)
    ensures |r| + |Pending(marks)| == |marks|
  {
    if marks == [] then []
    else
      var n := |marks| - 1;
      Done(marks[..n]) + (if marks[n].bytesAfter == 0 then [marks[n].name] else [])
  }

  function Names(marks: seq<Mark>): (r: seq<string>)
    ensures |r| == |marks|
  {
    seq(|marks|, i requires 0 <= i < |marks| => marks[i].name)
  }

  function First<T>(s: seq<T>, n: nat): (r: seq<T>)
    ensures |r| == Min(n, |s|)
  {
    s[..Min(n, |s|)]
  }

  lemma {:induction false} TakeFirst<T>(kept: seq<T>, left: seq<T>)
    requires left != []
    ensures kept + left == (kept + [left[0]]) + left[1..]
    ensures (kept + left)[|kept|] == left[0]
    ensures (kept + left)[..|kept|] + (kept + left)[|kept| + 1..] == kept + left[1..]
  {}

  /** Somewhere in the harvest loop: `kept` and `names` are what the first `k` marks came to, `left` is the rest. */
  ghost predicate Harvesting(all: seq<Mark>, k: nat, kept: seq<Mark>, left: seq<Mark>, names: seq<string>,
                             maxOut: nat)
  {
    && k <= |all| && left == all[k..]
    && kept == Pending(all[..k]) && names == First(Done(all[..k]), maxOut)
  }

  lemma {:induction false} HarvestStarts(all: seq<Mark>, maxOut: nat)
    ensures Harvesting(all, 0, [], all, [], maxOut) && [] + all == all
  {
    assert all[..0] == [] && all[0..] == all;
  }

  lemma {:induction false} HarvestGoesOn(all: seq<Mark>, k: nat, kept: seq<Mark>, left: seq<Mark>, names: seq<string>,
                                         maxOut: nat, k': nat, kept': seq<Mark>, left': seq<Mark>, names': seq<string>)
    requires Harvesting(all, k, kept, left, names, maxOut) && left != [] && k' == k + 1 && left' == left[1..]
    requires kept' == if left[0].bytesAfter == 0 then kept else kept + [left[0]]
    requires names' == if left[0].bytesAfter == 0 && |names| < maxOut then names + [left[0].name] else names
    ensures Harvesting(all, k', kept', left', names', maxOut)
  {
    Examine(all, k, maxOut);
  }

  lemma {:induction false} HarvestEnds(all: seq<Mark>, k: nat, kept: seq<Mark>, left: seq<Mark>, names: seq<string>,
                                       maxOut: nat)
    requires Harvesting(all, k, kept, left, names, maxOut) && left == []
    ensures kept + left == Pending(all) && names == First(Done(all), maxOut)
  {
    assert all[..k] == all && kept + [] == kept;
  }

  /** What the harvest loop adds when it looks at one more mark. */
  lemma Examine(all: seq<Mark>, k: nat, maxOut: nat)
    requires k < |all|
    ensures Pending(all[..k + 1]) == Pending(all[..k]) + if all[k].bytesAfter == 0 then [] else [all[k]]
    ensures First(Done(all[..k + 1]), maxOut)
         == First(Done(all[..k]), maxOut)
            + if all[k].bytesAfter == 0 && |Done(all[..k])| < maxOut then [all[k].name] else []
  {
    assert all[..k + 1][..k] == all[..k];
  }

  function Harvested(p: Buffer, maxOut: nat): (names: seq<string>) {
    First(Done(p.marks), maxOut)
  }

  /** Completed marks all leave, reported or not. */
  function Harvest(p: Buffer): (r: Buffer)
    requires Fits(p)
    ensures Fits(r)
  {
    p.(marks := Pending(p.marks))
  }

  function Flushed(p: Buffer, maxOut: nat): (names: seq<string>) {
    First(Names(p.marks), maxOut)
  }

  function Clear(p: Buffer): (r: Buffer)
    requires Fits(p)
    ensures Fits(r)
  {
    p.(data := [], marks := [], clearCount := p.clearCount + 1)
  }

  class PlayoutRing {
    const buf: array<byte>
    const marks: array<Mark>
    var head: nat
    var tail: nat
    var size: nat
    var markCount: nat
    var enqueuedBytes: nat
    var dequeuedBytes: nat
    var clearCount: nat
    ghost var view: Buffer

    ghost predicate Valid()
      reads this, buf, marks
      ensures Valid() ==> Fits(view)
    {
      && InBounds()
      && view == Buffer(buf.Length, Contents(), marks[..markCount], enqueuedBytes, dequeuedBytes, clearCount)
    }

    ghost function Contents(): (data: seq<byte>)
      requires InBounds()
      reads this, buf
    {
      Ring.Contents(buf[..], head, size)
    }

    ghost predicate InBounds()
      reads this
    {
      && head < buf.Length
      && size <= buf.Length
      && tail == Ring.Slot(head + size, buf.Length)
      && marks.Length == MARK_MAX
      && markCount <= MARK_MAX
    }

    constructor (capacityBytes: nat)
      requires 0 < capacityBytes
      ensures Valid() && fresh(buf) && fresh(marks)
      ensures view == New(capacityBytes)
    {
      buf := new byte[capacityBytes];
      marks := new Mark[MARK_MAX];
      head, tail, size, markCount := 0, 0, 0, 0;
      enqueuedBytes, dequeuedBytes, clearCount := 0, 0, 0;
      view := New(capacityBytes);
    }

    /** rtw_playout_init: a ring of no capacity is refused. */
    static method Create(capacityBytes: nat) returns (p: Option<PlayoutRing>)
      ensures p.None? <==> capacityBytes == 0
      ensures p.Some? ==> fresh(p.value) && fresh(p.value.buf) && fresh(p.value.marks)
      ensures p.Some? ==> p.value.Valid() && p.value.view == New(capacityBytes)
      ensures p.Some? ==> p.value.buf.Length == capacityBytes && p.value.size == 0 && p.value.markCount == 0
    {
      if capacityBytes == 0 {
        return None;
      }
      var ring := new PlayoutRing(capacityBytes);
      return Some(ring);
    }

    method PutByte(x: byte)
      requires InBounds() && size < buf.Length
      modifies `tail, `size, buf
      ensures InBounds() && size == old(size) + 1
      ensures Contents() == old(Contents()) + [x]
    {
      Ring.Append(buf[..], head, size, x);
      ghost var before := buf[..];
      buf[tail] := x;
      assert buf[..] == before[tail := x];
      tail := Ring.Next(tail, buf.Length);
      size := size + 1;
    }

    method PutBytes(data: seq<byte>)
      requires InBounds() && size + |data| <= buf.Length
      modifies `tail, `size, buf
      ensures InBounds() && Contents() == old(Contents()) + data
    {
      ghost var stored := Contents();
      var i: nat := 0;
      assert stored + data[..0] == stored;
      while i < |data|
        invariant i <= |data| && InBounds() && size == |stored| + i
        invariant Contents() == stored + data[..i]
      {
        assert stored + data[..i] + [data[i]] == stored + data[..i + 1];
        PutByte(data[i]);
        i := i + 1;
      }
      assert data[..i] == data;
    }

    method WriteBytes(data: seq<byte>) returns (ok: bool)
      requires Valid()
      modifies this, buf
      ensures Valid() && view == Write(old(view), data)
      ensures ok == Accepts(old(view), data)
    {
      if data == [] {
        return true;
      }
      if size + |data| > buf.Length {
        return false;
      }
      PutBytes(data);
      enqueuedBytes := enqueuedBytes + |data|;
      view := Write(view, data);
      return true;
    }

    /** Relative counters move down by what was read. */
    method AdvanceMarks(n: nat)
      requires InBounds()
      modifies marks
      ensures marks[..markCount] == Advance(old(marks[..markCount]), n)
    {
      var i := 0;
      while i < markCount
        invariant i <= markCount <= MARK_MAX
        invariant forall k :: i <= k < markCount ==> marks[k] == old(marks[k])
        invariant forall k :: 0 <= k < i ==> marks[k] == Advance(old(marks[..markCount]), n)[k]
      {
        if marks[i].bytesAfter >= n {
          marks[i] := marks[i].(bytesAfter := marks[i].bytesAfter - n);
        } else {
          marks[i] := marks[i].(bytesAfter := 0);
        }
        i := i + 1;
      }
    }

    method GetByte() returns (x: byte)
      requires InBounds() && size > 0
      modifies `head, `size
      ensures InBounds() && size == old(size) - 1
      ensures old(Contents()) == [x] + Contents()
    {
      Ring.Advance(buf[..], head, size);
      x := buf[head];
      head := Ring.Next(head, buf.Length);
      size := size - 1;
    }

    /** Copies the first `n` buffered bytes out and moves the head past them. */
    method TakeBytes(out: array<byte>, n: nat)
      requires InBounds() && n <= size && n <= out.Length && out != buf
      modifies `head, `size, out
      ensures InBounds() && Contents() == old(Contents())[n..]
      ensures out[..n] == old(Contents())[..n]
      ensures out[n..] == old(out[n..])
    {
      ghost var data := Contents();
      ghost var kept := out[n..];
      var i: nat := 0;
      while i < n
        invariant i <= n && InBounds() && size == |data| - i
        invariant Contents() == data[i..]
        invariant out[..i] == data[..i] && out[n..] == kept
      {
        ghost var left := data[i..];
        var x := GetByte();
        assert x == left[0] == data[i];
        assert data[i + 1..] == left[1..];
        out[i] := x;
        i := i + 1;
      }
    }

    method ReadBytes(out: array<byte>, maxLen: nat) returns (n: nat)
      requires Valid() && maxLen <= out.Length && out != buf
      modifies this, marks, out
      ensures Valid() && view == Read(old(view), maxLen)
      ensures n == Readable(old(view), maxLen)
      ensures out[..n] == old(view.data)[..n]
      ensures out[n..] == old(out[n..])
    {
      n := if maxLen < size then maxLen else size;
      TakeBytes(out, n);
      dequeuedBytes := dequeuedBytes + n;
      AdvanceMarks(n);
      view := Read(view, maxLen);
    }

    method QueueMark(name: string) returns (ok: bool)
      requires Valid()
      modifies this, marks
      ensures Valid() && view == AddMark(old(view), name)
      ensures ok == (|old(view).marks| < 64)
    {
      if markCount >= MARK_MAX {
        return false;
      }
      marks[markCount] := Mark(Truncate(name, MARK_NAME_LEN), size);
      markCount := markCount + 1;
      view := AddMark(view, name);
      assert marks[..markCount] == old(marks[..markCount]) + [Mark(Truncate(name, MARK_NAME_LEN), size)];
      return true;
    }

    /** Removes entry `i` by shifting the rest of the array down over it. */
    method RemoveMark(i: nat)
      requires i < markCount <= marks.Length
      modifies `markCount, marks
      ensures markCount == old(markCount) - 1
      ensures marks[..markCount] == old(marks[..markCount])[..i] + old(marks[..markCount])[i + 1..]
    {
      forall k | i <= k < markCount - 1 {
        marks[k] := marks[k + 1];
      }
      markCount := markCount - 1;
    }

    /** Looks at entry `i`, and removes it if it is completed. */
    method Visit(i: nat, ghost kept: seq<Mark>, ghost left: seq<Mark>) returns (done: bool, name: string)
      requires i < markCount <= marks.Length && |kept| == i && left != [] && marks[..markCount] == kept + left
      modifies `markCount, marks
      ensures done == (left[0].bytesAfter == 0) && name == left[0].name
      ensures markCount == old(markCount) - (if done then 1 else 0)
      ensures marks[..markCount] == kept + if done then left[1..] else left
    {
      TakeFirst(kept, left);
      assert marks[i] == marks[..markCount][i];
      done, name := marks[i].bytesAfter == 0, marks[i].name;
      if done {
        RemoveMark(i);
      }
    }

    /** Drops every completed mark from the array, reporting the first `maxOut` of them. */
    method Compact(maxOut: nat) returns (names: seq<string>)
      requires markCount <= marks.Length
      modifies `markCount, marks
      ensures markCount <= old(markCount)
      ensures marks[..markCount] == Pending(old(marks[..markCount]))
      ensures names == First(Done(old(marks[..markCount])), maxOut)
    {
      names := [];
      var i: nat := 0;
      ghost var all := marks[..markCount];
      ghost var k: nat, kept, left := 0, [], all;
      HarvestStarts(all, maxOut);
      while i < markCount
        invariant |kept| == i <= markCount <= |all| <= marks.Length
        invariant marks[..markCount] == kept + left && Harvesting(all, k, kept, left, names, maxOut)
        decreases markCount - i
      {
        ghost var k', kept', left', names' := k, kept, left, names;
        TakeFirst(kept, left);
        var done, name := Visit(i, kept, left);
        if done {
          if |names| < maxOut {
            names := names + [name];
          }
        } else {
          kept, i := kept + [left[0]], i + 1;
        }
        k, left := k + 1, left[1..];
        HarvestGoesOn(all, k', kept', left', names', maxOut, k, kept, left, names);
      }
      HarvestEnds(all, k, kept, left, names, maxOut);
    }

    method PopCompleted(maxOut: nat) returns (names: seq<string>)
      requires Valid()
      modifies `markCount, `view, marks
      ensures Valid() && view == Harvest(old(view))
      ensures names == Harvested(old(view), maxOut)
    {
      ghost var next := Harvest(view);
      names := Compact(maxOut);
      view := next;
    }

    method ClearAll(maxOut: nat) returns (names: seq<string>)
      requires Valid()
      modifies this
      ensures Valid() && view == Clear(old(view))
      ensures names == Flushed(old(view), maxOut)
    {
      names := [];
      var i := 0;
      while i < markCount && |names| < maxOut
        invariant i <= markCount && |names| == i <= maxOut
        invariant names == Names(marks[..markCount])[..i]
      {
        names := names + [marks[i].name];
        i := i + 1;
      }
      head, tail, size := 0, 0, 0;
      markCount := 0;
      clearCount := clearCount + 1;
      view := Clear(view);
    }
  }
}
