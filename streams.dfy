/** StreamUtils: skipping a stream forward to an offset, and filling a
    fixed-length buffer from a stream. */
module Streams {
  import opened Common

  /** An input stream over a fixed sequence of bytes with a read cursor. It
      behaves as java.io.ByteArrayInputStream and InputStream's default skip
      do: read returns -1 once nothing is left, skip never returns a negative
      count and returns 0 once nothing is left. One call moves at most `burst`
      bytes, as a stream backed by a file or a content provider may deliver
      fewer bytes than asked for. */
  class InputStream {
    const contents: seq<byte>
    const burst: nat
    var pos: nat
    var closed: bool

    ghost predicate Valid()
      reads this
    {
      pos <= |contents| && burst > 0
    }

    function Available(): nat
      reads this
      requires Valid()
    {
      |contents| - pos
    }

    constructor (contents: seq<byte>, burst: nat)
      requires burst > 0
      ensures Valid() && this.contents == contents && this.burst == burst
      ensures pos == 0 && !closed
    {
      this.contents := contents;
      this.burst := burst;
      pos := 0;
      closed := false;
    }

    /** InputStream.skip(n). */
    method Skip(n: int) returns (amt: int)
      requires Valid()
      modifies this`pos
      ensures Valid()
      ensures amt == SkipCount(n, old(Available()), burst)
      ensures pos == old(pos) + amt
    {
      amt := SkipCount(n, |contents| - pos, burst);
      pos := pos + amt;
    }

    /** InputStream.read(buffer, off, n): copies the next `count` bytes into
        buffer[off..off + count], or returns -1 at the end of the stream. */
    method Read(buffer: array<byte>, off: nat, n: nat) returns (count: int)
      requires Valid() && off + n <= buffer.Length
      modifies this`pos, buffer
      ensures Valid()
      ensures count == ReadCount(n, old(Available()), burst)
      ensures pos == old(pos) + (if count < 0 then 0 else count)
      ensures buffer[..] == old(buffer[..])[..off] + contents[old(pos)..pos] + old(buffer[..])[off + (pos - old(pos))..]
    {
      count := ReadCount(n, |contents| - pos, burst);
      if count > 0 {
        forall k | 0 <= k < count {
          buffer[off + k] := contents[pos + k];
        }
        pos := pos + count;
      }
    }

    method Close()
      modifies this`closed
      ensures closed
    {
      closed := true;
    }
  }

  /** The count InputStream.skip(n) returns when `available` bytes remain. */
  function SkipCount(n: int, available: nat, burst: nat): nat
  {
    if n <= 0 then 0 else Min(Min(n, available), burst)
  }

  /** The count read(buffer, off, n) returns when `available` bytes remain. */
  function ReadCount(n: nat, available: nat, burst: nat): int
  {
    if available == 0 then -1 else Min(Min(n, available), burst)
  }

  /** What StreamUtils.read(in, len) returns when the stream still holds
      `rest`: the first `len` of those bytes, followed by zeros when the
      stream ends before `len` bytes were copied. */
  function Filled(rest: seq<byte>, len: nat): seq<byte>
  {
    if |rest| >= len then rest[..len] else rest + Zeros(len - |rest|)
  }

  /** The buffer always has exactly `len` bytes; it starts with the stream's
      bytes in order and every position past the stream's end is zero. */
  lemma FilledShape(rest: seq<byte>, len: nat)
    ensures |Filled(rest, len)| == len
    ensures forall k :: 0 <= k < len && k < |rest| ==> Filled(rest, len)[k] == rest[k]
    ensures forall k :: |rest| <= k < len ==> Filled(rest, len)[k] == 0
  {
  }

  /** StreamUtils.read: reads until `len` bytes are copied or the stream
      ends, asking each time only for the bytes still missing and placing
      them right after those already copied; then closes the stream. */
  method ReadFully(stream: InputStream, len: nat) returns (buffer: array<byte>)
    requires stream.Valid()
    modifies stream
    ensures fresh(buffer) && buffer.Length == len
    ensures buffer[..] == Filled(old(stream.contents[stream.pos..]), len)
    ensures stream.Valid() && stream.pos == old(stream.pos) + Min(len, old(stream.Available()))
    ensures stream.closed
  {
    var bytesCopied: int := 0;
    buffer := new byte[len](_ => 0);
    ghost var start := stream.pos;
    assert buffer[..] == Zeros(len);
    var bytes := stream.Read(buffer, 0, len);
    while bytes >= 0 && bytesCopied < len
      invariant stream.Valid() && start <= stream.pos
      invariant 0 <= bytesCopied <= len
      invariant -1 <= bytes <= len - bytesCopied
      invariant bytes == -1 ==> stream.pos == |stream.contents|
      invariant bytes == 0 ==> bytesCopied == len
      invariant stream.pos == start + bytesCopied + (if bytes < 0 then 0 else bytes)
      invariant buffer[..] == stream.contents[start..stream.pos] + Zeros(len - (stream.pos - start))
      decreases len - bytesCopied
    {
      bytesCopied := bytesCopied + bytes;
      bytes := stream.Read(buffer, bytesCopied, len - bytesCopied);
    }
    stream.Close();
  }

  datatype SkipOutcome = Skipped | UnexpectedEof

  /** StreamUtils.safeSkip with the end of the stream detected: the source
      treats only a negative skip count as the end, but skip returns 0 there,
      so this version also stops on a count of 0 (see SkipPastEndNeverFinishes
      for the loop as written). It skips exactly `offset` bytes when the
      stream holds that many, and otherwise reports the unexpected end. An
      offset of 0 or below skips nothing. */
  method SafeSkip(stream: InputStream, offset: int) returns (r: SkipOutcome)
    requires stream.Valid()
    modifies stream`pos
    ensures stream.Valid()
    ensures r == Skipped <==> offset <= old(stream.Available())
    ensures r == Skipped ==> stream.pos == old(stream.pos) + (if offset > 0 then offset else 0)
    ensures r == UnexpectedEof ==> stream.pos == |stream.contents|
  {
    if offset == 0 {
      return Skipped;
    }
    var at := offset;
    while at > 0
      invariant stream.Valid()
      invariant at <= offset
      invariant offset > 0 ==> at >= 0 && stream.pos + at == old(stream.pos) + offset
      invariant offset < 0 ==> stream.pos == old(stream.pos)
      decreases at
    {
      var amt := stream.Skip(at);
      if amt <= 0 {
        return UnexpectedEof;
      }
      at := at - amt;
    }
    return Skipped;
  }

  /** The remaining count `at` of safeSkip's loop exactly as written, after at
      most `steps` passes, for a stream holding `available` bytes. The
      `amt < 0` exit is never taken, because SkipCount is never negative. */
  function AsWrittenSkipLoop(at: int, available: nat, burst: nat, steps: nat): int
  {
    if steps == 0 || at <= 0 then at
    else
      var amt := SkipCount(at, available, burst);
      AsWrittenSkipLoop(at - amt, available - amt, burst, steps - 1)
  }

  /** Asked to skip past the end, safeSkip as written never leaves its loop:
      however many passes it makes, the count still to skip stays positive. */
  lemma {:induction false} SkipPastEndNeverFinishes(at: int, available: nat, burst: nat, steps: nat)
    requires burst > 0 && at > available
    ensures AsWrittenSkipLoop(at, available, burst, steps) >= at - available > 0
  {
    if steps > 0 && at > 0 {
      var amt := SkipCount(at, available, burst);
      SkipPastEndNeverFinishes(at - amt, available - amt, burst, steps - 1);
    }
  }

  /** Within the stream's length the loop as written does finish, having
      skipped exactly `at` bytes, once it may make `at` passes. */
  lemma {:induction false} SkipWithinStreamFinishes(at: int, available: nat, burst: nat, steps: nat)
    requires burst > 0 && 0 <= at <= available && steps >= at
    ensures AsWrittenSkipLoop(at, available, burst, steps) == 0
  {
    if steps > 0 && at > 0 {
      var amt := SkipCount(at, available, burst);
      SkipWithinStreamFinishes(at - amt, available - amt, burst, steps - 1);
    }
  }
}
