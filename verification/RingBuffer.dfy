/** A ring buffer on the heap.  One slot always stays free, so that start and end
    tell an empty buffer from a full one. */
module RingBuffer {
  import opened Wheel

  /** The buffer as a value; `data` has one slot more than the capacity. */
  datatype Ring<T> = Ring(start: nat, end: nat, data: seq<T>) {
    predicate Valid() {
      start < |data| && end < |data|
    }

    /** What is in the buffer, oldest first. */
    function Contents(): seq<T>
      requires Valid()
    {
      if start <= end then data[start..end] else data[start..] + data[..end]
    }
  }

  /** The slot after slot `k` of `n`. */
  function After(k: nat, n: nat): (next: nat)
    requires k < n
    ensures next < n
  {
    (k + 1) % n
  }

  function Distance(start: nat, end: nat, n: nat): (d: nat)
    requires start < n && end < n
    ensures d < n
  {
    (end - start + n) % n
  }

  lemma AfterIs(k: nat, n: nat)
    requires k < n
    ensures After(k, n) == if k + 1 == n then 0 else k + 1
  {
    Reduce(k + 1, n);
  }

  lemma DistanceIs(start: nat, end: nat, n: nat)
    requires start < n && end < n
    ensures Distance(start, end, n) == if start <= end then end - start else end - start + n
  {
    Reduce(end - start + n, n);
  }

  lemma Reduce(a: nat, n: nat)
    requires a < 2 * n
    ensures a % n == if a < n then a else a - n
  {
    if a >= n {
      assert a == n * 1 + (a - n);
    }
  }

  /** The code's size, computed modulo the number of slots, is the number of elements. */
  lemma SizeExact<T>(r: Ring<T>)
    requires r.Valid()
    ensures Distance(r.start, r.end, |r.data|) == |r.Contents()|
    ensures r.start == r.end <==> r.Contents() == []
    ensures After(r.end, |r.data|) == r.start <==> |r.Contents()| == |r.data| - 1
  {
    hide After, Distance;
    AfterIs(r.end, |r.data|);
    DistanceIs(r.start, r.end, |r.data|);
  }

  /** `resize`, as the code does it: it does not move an empty buffer, and does not ask for a free slot. */
  function Resized<T>(r: Ring<T>, n: nat, fresh_: T): (Ring<T>, bool)
    requires r.Valid()
  {
    var contents := r.Contents();
    if n + 1 == |r.data| then (r, true)
    else if n + 1 < |contents| then (r, false)
    else
      var data := seq(n + 1, i requires 0 <= i => if i < |contents| then contents[i] else fresh_);
      if contents == [] then (Ring(r.start, r.end, data), true)
      else (Ring(0, |contents|, data), true)
  }

  /** When the result is a buffer again. */
  predicate ResizeFits<T>(r: Ring<T>, n: nat)
    requires r.Valid()
  {
    if r.Contents() == [] then r.start < n + 1 else |r.Contents()| <= n
  }

  /** A resize reports success unless the elements exceed the new number of slots; then it keeps the contents if they
      fit, and breaks the buffer otherwise. */
  lemma {:induction false} ResizeExact<T>(r: Ring<T>, n: nat, fresh_: T)
    requires r.Valid()
    ensures var (r', ok) := Resized(r, n, fresh_);
      && (ok <==> |r.Contents()| <= n + 1)
      && (!ok || n + 1 == |r.data| ==> r' == r)
      && (ok ==> (r'.Valid() <==> ResizeFits(r, n)))
      && (ok && ResizeFits(r, n) ==> r'.Contents() == r.Contents() && |r'.data| == n + 1)
  {
  }

  /** An empty buffer whose positions have moved on does not survive a smaller size. */
  lemma ResizeBreaksEmpty()
    ensures var r := Ring(3, 3, [0, 0, 0, 0]);
      r.Valid() && r.Contents() == [] && Resized(r, 1, 0).1 && !Resized(r, 1, 0).0.Valid()
  {
  }

  /** Three elements do not fit a capacity of two, which is accepted all the same. */
  lemma ResizeBreaksFull()
    ensures var r := Ring(0, 3, [1, 2, 3, 0]);
      r.Valid() && |r.Contents()| == 3 && Resized(r, 2, 0).1 && !Resized(r, 2, 0).0.Valid()
  {
    var r := Ring(0, 3, [1, 2, 3, 0]);
    assert r.Contents() == [1, 2, 3];
  }

  class HeapRingBuffer<T(0)> {
    var start: nat
    var end: nat
    var data: array<T>

    ghost function Seen(): Ring<T>
      reads this, data
    {
      Ring(start, end, data[..])
    }

    ghost predicate Valid()
      reads this, data
    {
      Seen().Valid()
    }

    ghost function Contents(): seq<T>
      requires Valid()
      reads this, data
    {
      Seen().Contents()
    }

    constructor (size: nat)
      ensures Valid() && fresh(data) && Contents() == [] && data.Length == size + 1
    {
      start, end := 0, 0;
      data := new T[size + 1];
    }

    predicate IsEmpty()
      reads this
    {
      start == end
    }

    predicate IsFill()
      requires Valid()
      reads this, data
    {
      After(end, data.Length) == start
    }

    function Size(): nat
      requires Valid()
      reads this, data
    {
      Distance(start, end, data.Length)
    }

    function Capacity(): nat
      requires Valid()
      reads this, data
    {
      data.Length - 1
    }

    method SafetyPush(value: T)
      requires Valid() && !IsFill()
      modifies this, data
      ensures Valid() && data == old(data) && Contents() == old(Contents()) + [value]
    {
      hide After;
      SizeExact(Seen());
      ghost var before := data[..];
      data[end] := value;
      assert data[..] == before[end := value];
      end := After(end, data.Length);
      PushedContents(old(Seen()), Seen(), value);
    }

    method SafetyPop() returns (value: T)
      requires Valid() && !IsEmpty()
      modifies this
      ensures Valid() && data == old(data) && old(Contents()) == [value] + Contents()
    {
      hide After;
      value := data[start];
      start := After(start, data.Length);
      PoppedContents(old(Seen()), Seen());
    }

    method Push(value: T) returns (ok: bool)
      requires Valid()
      modifies this, data
      ensures Valid() && data == old(data) && ok == (|old(Contents())| < Capacity())
      ensures Contents() == if ok then old(Contents()) + [value] else old(Contents())
    {
      SizeExact(Seen());
      if IsFill() {
        return false;
      }
      SafetyPush(value);
      return true;
    }

    method Pop() returns (r: Option<T>)
      requires Valid()
      modifies this
      ensures Valid() && data == old(data)
      ensures old(Contents()) == [] ==> r == None && Contents() == []
      ensures old(Contents()) != [] ==> r == Some(old(Contents())[0]) && Contents() == old(Contents())[1..]
    {
      SizeExact(Seen());
      if IsEmpty() {
        return None;
      }
      var value := SafetyPop();
      return Some(value);
    }

    /** Succeeds unless the elements exceed the new number of slots; the buffer survives exactly if it fits. */
    method Resize(n: nat) returns (ok: bool)
      requires Valid()
      modifies this
      ensures ok <==> |old(Contents())| <= n + 1
      ensures n + 1 == old(data.Length) ==> start == old(start) && end == old(end) && data == old(data)
      ensures !ok ==> start == old(start) && end == old(end) && data == old(data)
      ensures ok ==> (Valid() <==> ResizeFits(old(Seen()), n))
      ensures ok && ResizeFits(old(Seen()), n) ==> data.Length == n + 1 && Contents() == old(Contents())
    {
      hide Distance, After;
      SizeExact(Seen());
      var newSize := n + 1;
      if newSize == data.Length {
        return true;
      }
      if newSize < Size() {
        return false;
      }
      var fresh_ := new T[newSize];
      if start < end {
        CopyOut(fresh_);
        end := end - start;
        start := 0;
      } else if start > end {
        CopyOut(fresh_);
        end := end + data.Length - start;
        start := 0;
      }
      data := fresh_;
      assert start < end ==> data[..][start..end] == data[start..end];
      return true;
    }

    /** Copies the elements, in order, to the front of a larger array. */
    method CopyOut(dst: array<T>)
      requires Valid() && data != dst && |Contents()| <= dst.Length
      modifies dst
      ensures dst[..|Contents()|] == Contents()
    {
      if start <= end {
        CopyTo(data, start, end, dst, 0);
      } else {
        CopyTo(data, start, data.Length, dst, 0);
        var n := data.Length - start;
        ghost var first := dst[..n];
        CopyTo(data, 0, end, dst, n);
        assert dst[..n + end] == dst[..n] + dst[n..n + end];
      }
      assert data[..][start..] == data[start..] && data[..][..end] == data[..end];
    }

    static method CopyTo(src: array<T>, lo: nat, hi: nat, dst: array<T>, at: nat)
      requires lo <= hi <= src.Length && at + (hi - lo) <= dst.Length && src != dst
      modifies dst
      ensures dst[at..at + (hi - lo)] == src[lo..hi] && dst[..at] == old(dst[..at])
    {
      for i := 0 to hi - lo
        invariant dst[at..at + i] == src[lo..lo + i] && dst[..at] == old(dst[..at])
      {
        dst[at + i] := src[lo + i];
        assert dst[at..at + i] == src[lo..lo + i];
      }
    }
  }

  lemma PushedContents<T>(r: Ring<T>, r': Ring<T>, value: T)
    requires r.Valid() && After(r.end, |r.data|) != r.start
    requires r' == Ring(r.start, After(r.end, |r.data|), r.data[r.end := value])
    ensures r'.Valid() && r'.Contents() == r.Contents() + [value]
  {
    hide After;
    AfterIs(r.end, |r.data|);
  }

  lemma PoppedContents<T>(r: Ring<T>, r': Ring<T>)
    requires r.Valid() && r.start != r.end
    requires r' == Ring(After(r.start, |r.data|), r.end, r.data)
    ensures r'.Valid() && r.Contents() == [r.data[r.start]] + r'.Contents()
  {
    hide After;
    AfterIs(r.start, |r.data|);
  }
}
