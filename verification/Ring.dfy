/** The circular layout shared by the outbound queue and the playout buffer:
    `size` elements of an array start at `head` and wrap at its end. */
module Ring {

  function Contents<T>(s: seq<T>, head: nat, size: nat): (c: seq<T>)
    requires head < |s| && size <= |s|
    ensures |c| == size
  {
    if head + size <= |s| then s[head..head + size]
    else s[head..] + s[..head + size - |s|]
  }

  /** Array index of position `i` counted from the start of the array, wrapped once. */
  function Slot(i: nat, n: nat): (k: nat)
    requires i < 2 * n
    ensures k < n
  {
    if i < n then i else i - n
  }

  lemma Wrap(i: nat, n: nat)
    requires i < 2 * n
    ensures i % n == Slot(i, n)
  {
    if i < n {
      assert i / n == 0;
    } else {
      assert i / n == 1;
    }
  }

  /** The increment both rings use. */
  method Next(i: nat, n: nat) returns (k: nat)
    requires i < n
    ensures k == Slot(i + 1, n)
  {
    Wrap(i + 1, n);
    k := (i + 1) % n;
  }

  /** Storing at the tail slot appends. */
  lemma Append<T>(s: seq<T>, head: nat, size: nat, x: T)
    requires head < |s| && size < |s|
    ensures Contents(s[Slot(head + size, |s|) := x], head, size + 1) == Contents(s, head, size) + [x]
  {}

  /** Advancing the head slot drops the first element. */
  lemma Advance<T>(s: seq<T>, head: nat, size: nat)
    requires head < |s| && 0 < size <= |s|
    ensures Contents(s, head, size) == [s[head]] + Contents(s, Slot(head + 1, |s|), size - 1)
  {
    if head + 1 < |s| && head + size > |s| {
      assert s[head..] == [s[head]] + s[head + 1..];
    }
  }
}
