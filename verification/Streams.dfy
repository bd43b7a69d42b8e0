/** The buffer between a stream and its user: an array of bytes, of which the
    part between the read and the write position is waiting to be read. */
module Streams {

  type byte = x: int | 0 <= x < 256

  datatype Error = WriteZero | EarlyEof | Os(code: int)

  datatype Result = Ok(value: nat) | Err(error: Error)

  function Min(a: nat, b: nat): nat {
    if a < b then a else b
  }

  /** The shortest prefix that ends in the flag, or nothing if the flag does not occur. */
  function UpToFlag(s: seq<byte>, flag: byte): (r: seq<byte>)
    ensures r <= s
    ensures r == [] <==> flag !in s
    ensures r != [] ==> r[|r| - 1] == flag && flag !in r[..|r| - 1]
  {
    if s == [] then []
    else if s[0] == flag then [s[0]]
    else
      var rest := UpToFlag(s[1..], flag);
      if rest == [] then [] else [s[0]] + rest
  }

  /** There is only one such prefix. */
  lemma {:induction false} UpToFlagUnique(s: seq<byte>, flag: byte, k: nat)
    requires k < |s| && s[k] == flag && flag !in s[..k]
    ensures UpToFlag(s, flag) == s[..k + 1]
  {
    assert k > 0 ==> s[0] == s[..k][0];
    if s[0] != flag {
      assert s[1..][..k - 1] == s[1..k] && s[1..][k - 1] == flag;
      assert forall x :: x in s[1..k] ==> x in s[..k];
      UpToFlagUnique(s[1..], flag, k - 1);
      assert s[..k + 1] == [s[0]] + s[1..][..k];
    }
  }

  class StreamBuffer {
    const buf: array<byte>
    var rPos: nat
    var wPos: nat

    ghost predicate Valid()
      reads this
    {
      rPos <= wPos <= buf.Length
    }

    /** What was put in and not yet taken out. */
    ghost function Contents(): (s: seq<byte>)
      requires Valid()
      reads this, buf
      ensures |s| == RRemaining()
    {
      buf[rPos..wPos]
    }

    constructor (size: nat)
      ensures Valid() && fresh(buf) && buf.Length == size && rPos == 0 && Contents() == []
    {
      buf := new byte[size];
      rPos, wPos := 0, 0;
    }

    function RRemaining(): nat
      requires Valid()
      reads this
    {
      wPos - rPos
    }

    function WRemaining(): nat
      requires Valid()
      reads this
    {
      buf.Length - wPos
    }

    /** Moves what is waiting to the front. */
    method ResetData()
      requires Valid()
      modifies this, buf
      ensures Valid() && rPos == 0 && Contents() == old(Contents())
    {
      var len := RRemaining();
      for i := 0 to len
        modifies buf
        invariant buf[..i] == old(Contents())[..i]
        invariant forall k :: rPos + i <= k < wPos ==> buf[k] == old(buf[k])
      {
        buf[i] := buf[rPos + i];
      }
      rPos, wPos := 0, len;
    }

    method ResetPos()
      requires Valid()
      modifies this
      ensures Valid() && rPos == wPos == 0 && Contents() == []
    {
      rPos, wPos := 0, 0;
    }

    method RIncrease(n: nat)
      requires Valid() && n <= RRemaining()
      modifies this
      ensures Valid() && wPos == old(wPos) && rPos == old(rPos) + n && Contents() == old(Contents())[n..]
    {
      rPos := rPos + n;
    }

    /** `n` bytes were written behind the write position. */
    method WIncrease(n: nat)
      requires Valid() && n <= WRemaining()
      modifies this
      ensures Valid() && rPos == old(rPos) && wPos == old(wPos) + n
      ensures Contents() == old(Contents()) + old(buf[wPos..wPos + n])
    {
      wPos := wPos + n;
    }

    /** Copies as much as fits to `dst[lo..hi]`. */
    method WriteTo(dst: array<byte>, lo: nat, hi: nat) returns (len: nat)
      requires Valid() && lo <= hi <= dst.Length && dst != buf
      modifies this, dst
      ensures Valid() && len == Min(|old(Contents())|, hi - lo)
      ensures dst[lo..lo + len] == old(Contents())[..len] && Contents() == old(Contents())[len..]
      ensures Contents() == [] ==> rPos == 0
      ensures dst[..lo] == old(dst[..lo]) && dst[lo + len..] == old(dst[lo + len..])
    {
      len := Min(RRemaining(), hi - lo);
      for i := 0 to len
        modifies dst
        invariant dst[lo..lo + i] == buf[rPos..rPos + i]
        invariant forall k :: 0 <= k < lo || lo + i <= k < dst.Length ==> dst[k] == old(dst[k])
      {
        dst[lo + i] := buf[rPos + i];
        assert dst[lo..lo + i] == buf[rPos..rPos + i];
      }
      assert buf[rPos..rPos + len] == Contents()[..len] == old(Contents())[..len];
      RIncrease(len);
      if rPos == wPos {
        ResetPos();
      }
    }

    /** Takes as much of `src` as fits. */
    method ReadFrom(src: seq<byte>) returns (len: nat)
      requires Valid()
      modifies this, buf
      ensures Valid() && len == Min(old(WRemaining()), |src|)
      ensures Contents() == old(Contents()) + src[..len] && rPos == old(rPos)
    {
      len := Min(WRemaining(), |src|);
      for i := 0 to len
        modifies buf
        invariant buf[wPos..wPos + i] == src[..i]
        invariant buf[..wPos] == old(buf[..wPos])
      {
        buf[wPos + i] := src[i];
        assert buf[wPos..wPos + i] == src[..i];
      }
      assert buf[rPos..wPos] == buf[..wPos][rPos..];
      WIncrease(len);
    }

    method FindFlagAndReturnSlice(flag: byte) returns (slice: seq<byte>)
      requires Valid()
      ensures slice == UpToFlag(Contents(), flag)
    {
      for i := 0 to RRemaining()
        invariant flag !in Contents()[..i]
      {
        if buf[rPos + i] == flag {
          UpToFlagUnique(Contents(), flag, i);
          return buf[rPos..rPos + i + 1];
        }
      }
      assert Contents()[..RRemaining()] == Contents();
      return [];
    }
  }
}
