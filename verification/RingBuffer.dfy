/**
 The fixed-size circular buffer of samples, refined to the sequence of values added since the last
 reset: what it holds is always the longest suffix of that sequence that fits.
 */
module RingBuffers {

  /** The last `n` values of a history, or all of it when it is shorter. */
  function Suffix(s: seq<real>, n: nat): (r: seq<real>)
    ensures |r| == (if n < |s| then n else |s|)
  {
    if n < |s| then s[|s| - n..] else s
  }

  lemma SuffixOfSuffix(s: seq<real>, size: nat, n: nat)
    ensures Suffix(Suffix(s, size), n) == Suffix(s, if n < size then n else size)
    ensures var m := if n < |Suffix(s, size)| then n else |Suffix(s, size)|;
            Suffix(Suffix(s, size), n) == s[|s| - m..]
  {
  }

  /** The remainder of a number below twice the divisor. */
  lemma OneLap(x: nat, size: nat)
    requires 0 < size && x < 2 * size
    ensures x % size == if x < size then x else x - size
  {
    var q := x / size;
    assert x == q * size + x % size;
    assert q >= 2 ==> q * size >= 2 * size;
    assert q <= 0 ==> q * size <= 0;
  }

  /** Slot of the `back`-th most recent sample. */
  function Slot(idx: nat, back: nat, size: nat): (k: nat)
    requires idx < size && 1 <= back <= size
    ensures k == if back <= idx then idx - back else idx + size - back
  {
    OneLap(idx - back + size, size);
    (idx - back + size) % size
  }

  /** The write position after one more sample. */
  function Next(idx: nat, size: nat): (k: nat)
    requires idx < size
    ensures k == if idx + 1 < size then idx + 1 else 0
  {
    OneLap(idx + 1, size);
    (idx + 1) % size
  }

  /** Advancing the write position makes every sample one step older and keeps its slot. */
  lemma SlotAdvances(idx: nat, back: nat, size: nat)
    requires idx < size && 1 <= back < size
    ensures Slot(Next(idx, size), back + 1, size) == Slot(idx, back, size) != idx
    ensures Slot(Next(idx, size), 1, size) == idx
  {
    hide Slot, Next;
  }

  class RingBuffer {
    const buf: array<real>
    const size: nat
    var idx: nat
    var count: nat
    /** Every value added since the last reset, oldest first. */
    ghost var history: seq<real>

    ghost predicate Valid()
      reads this, buf
    {
      && 0 < size == buf.Length && idx < size
      && count == (if |history| < size then |history| else size)
      && forall back :: 1 <= back <= count ==> buf[Slot(idx, back, size)] == history[|history| - back]
    }

    constructor (size: nat)
      requires size > 0
      ensures Valid() && fresh(buf) && this.size == size && history == []
    {
      this.size := size;
      buf := new real[size];
      idx, count, history := 0, 0, [];
    }

    method Add(v: real)
      requires Valid()
      modifies this, buf
      ensures Valid() && history == old(history) + [v]
    {
      hide Slot, Next;
      ghost var before := history;
      ghost var was := idx;
      buf[idx] := v;
      idx := Next(idx, size);
      if count < size { count := count + 1; }
      history := history + [v];
      forall back | 1 <= back <= count ensures buf[Slot(idx, back, size)] == history[|history| - back] {
        if back == 1 {
          assert Slot(idx, 1, size) == was;
        } else {
          SlotAdvances(was, back - 1, size);
          assert history[|history| - back] == before[|before| - (back - 1)];
        }
      }
    }

    /** The slot read for the `i`-th of the `m` newest samples holds it. */
    lemma Reads(m: nat, i: nat)
      requires Valid() && i < m <= count
      ensures buf[Slot(idx, m - i, size)] == history[|history| - m + i]
      ensures history[|history| - m..|history| - m + i] + [buf[Slot(idx, m - i, size)]]
                == history[|history| - m..|history| - m + i + 1]
    {
      hide Slot;
    }

    /** Oldest first, everything held. */
    method Values() returns (result: seq<real>)
      requires Valid()
      ensures result == Suffix(history, size)
    {
      hide Slot;
      result := [];
      for i := 0 to count
        invariant result == history[|history| - count..|history| - count + i]
      {
        Reads(count, i);
        result := result + [buf[Slot(idx, count - i, size)]];
      }
    }

    /** Oldest first, the `n` newest; a request for more than is held yields what is held. */
    method Last(n: int) returns (result: seq<real>)
      requires Valid()
      ensures n <= 0 ==> result == []
      ensures n > 0 ==> result == Suffix(Suffix(history, size), n)
    {
      hide Slot, Suffix;
      if n <= 0 || count == 0 { return []; }
      var m: nat := if n > count then count else n;
      result := [];
      for i := 0 to m
        invariant result == history[|history| - m..|history| - m + i]
      {
        Reads(m, i);
        result := result + [buf[Slot(idx, m - i, size)]];
      }
      assert result == history[|history| - m..];
      SuffixOfSuffix(history, size, n);
    }

    method Latest() returns (value: real, ok: bool)
      requires Valid()
      ensures ok <==> history != []
      ensures value == if ok then history[|history| - 1] else 0.0
    {
      if count == 0 { return 0.0, false; }
      return buf[Slot(idx, 1, size)], true;
    }

    method Len() returns (n: nat)
      requires Valid()
      ensures n == |Suffix(history, size)|
    {
      n := count;
    }

    method IsFull() returns (full: bool)
      requires Valid()
      ensures full <==> |history| >= size
    {
      full := count == size;
    }

    method Reset()
      requires Valid()
      modifies this
      ensures Valid() && history == []
    {
      idx, count, history := 0, 0, [];
    }
  }

  // ---------------------------------------------------------------- whole runs

  datatype Call = AddCall(v: real) | ResetCall

  /** Values added since the last reset in a whole run of calls. */
  function SinceReset(calls: seq<Call>): seq<real> {
    if calls == [] then []
    else match calls[|calls| - 1]
      case AddCall(v) => SinceReset(calls[..|calls| - 1]) + [v]
      case ResetCall => []
  }

  /** Any run of calls on a new buffer: it reads back the newest values since the last reset. */
  method Replay(size: nat, calls: seq<Call>, n: nat)
    returns (values: seq<real>, last: seq<real>, latest: real, ok: bool, len: nat, full: bool)
    requires size > 0
    ensures values == Suffix(SinceReset(calls), size)
    ensures last == Suffix(values, n)
    ensures ok <==> values != []
    ensures ok ==> latest == values[|values| - 1]
    ensures len == |values| && (full <==> |values| == size)
  {
    var ring := new RingBuffer(size);
    for i := 0 to |calls|
      invariant ring.Valid() && ring.size == size && fresh(ring) && fresh(ring.buf)
      invariant ring.history == SinceReset(calls[..i])
    {
      assert calls[..i + 1][..i] == calls[..i];
      match calls[i] {
        case AddCall(v) => ring.Add(v);
        case ResetCall => ring.Reset();
      }
    }
    assert calls[..|calls|] == calls;
    values := ring.Values();
    last := ring.Last(n);
    latest, ok := ring.Latest();
    len := ring.Len();
    full := ring.IsFull();
  }
}
