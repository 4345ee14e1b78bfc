/** channel.go: `Channel`, an in-process byte conduit over a queue of chunks
    with a leftover buffer. `ReadAsWritten` is what its Read does, step for
    step; `ReadCorrected` is the read it evidently means to be. */
module Channels {

  import opened Wrappers
  import opened Bytes
  import opened Errors
  import opened Queues
  import opened RedisIO

  /** The queue's next item, if it has one. */
  function Head(items: seq<Bytes>): Option<Bytes>
  {
    if items == [] then None else Some(items[0])
  }

  /** Everything one Read decides: the contents of p afterwards, the count it
      returns, the new leftover buffer, whether it took a chunk from the
      queue, and whether it returned EOF. */
  datatype ReadOutcome = ReadOutcome(p: Bytes, n: nat, buffer: Bytes, took: bool, eof: bool)

  /** The leftovers fill p, so the queue is not consulted. */
  predicate ServedFromBuffer(buffer: Bytes, room: nat)
  {
    |buffer| > 0 && room <= |buffer|
  }

  /** `c.buffer = chunk[n:]` uses the total count n, leftovers included; it
      panics once that passes the end of the chunk. */
  predicate ChunkSliceInRange(buffer: Bytes, room: nat, next: Option<Bytes>)
  {
    !ServedFromBuffer(buffer, room) && next.Some? ==>
      |buffer| + Min(room - |buffer|, |next.value|) <= |next.value|
  }

  /** Channel.Read as written, on the leftover buffer, the old contents of p
      and the chunk the queue yields next (None: closed and drained). Both
      copies write to the front of p. */
  function ReadAsWritten(buffer: Bytes, p: Bytes, next: Option<Bytes>): (r: ReadOutcome)
    requires ChunkSliceInRange(buffer, |p|, next)
    ensures r.took <==> !ServedFromBuffer(buffer, |p|) && next.Some?
  {
    var bs := Min(|p|, |buffer|);
    var p1 := buffer[..bs] + p[bs..];
    if ServedFromBuffer(buffer, |p|) then ReadOutcome(p1, bs, buffer[bs..], false, false)
    else
      match next
      case None => ReadOutcome(p1, bs, [], false, true)
      case Some(chunk) =>
        var cs := Min(|p| - bs, |chunk|);
        ReadOutcome(chunk[..cs] + p1[cs..], bs + cs, chunk[bs + cs..], true, false)
  }

  /** Whatever the case, p keeps its length and the count never passes it. */
  lemma ReadNeverOverfills(buffer: Bytes, p: Bytes, next: Option<Bytes>)
    requires ChunkSliceInRange(buffer, |p|, next)
    ensures |ReadAsWritten(buffer, p, next).p| == |p|
    ensures ReadAsWritten(buffer, p, next).n <= |p|
  {
  }

  /** Leftovers come first; when they fill p, no chunk is taken and the rest
      of them stays buffered. */
  lemma ReadServesLeftoversFirst(buffer: Bytes, p: Bytes, next: Option<Bytes>)
    requires |buffer| > 0 && |p| <= |buffer|
    ensures var r := ReadAsWritten(buffer, p, next);
      && r.n == |p| && r.p == buffer[..|p|] && r.buffer == buffer[|p|..]
      && !r.took && !r.eof
  {
  }

  /** With no leftovers, a chunk yields min(len(p), len(chunk)) bytes from its
      front, and the rest of it becomes the buffer: nothing is lost. */
  lemma ReadOfFreshChunk(p: Bytes, chunk: Bytes)
    ensures var r := ReadAsWritten([], p, Some(chunk));
      && r.took && !r.eof
      && r.n == Min(|p|, |chunk|)
      && r.p[..r.n] == chunk[..r.n] && r.p[r.n..] == p[r.n..]
      && r.p[..r.n] + r.buffer == chunk
  {
    var r := ReadAsWritten([], p, Some(chunk));
    assert r.p[..r.n] + r.buffer == chunk[..r.n] + chunk[r.n..];
  }

  /** The queue closed and drained: EOF, after whatever leftovers fit. */
  lemma ReadAtEnd(buffer: Bytes, p: Bytes)
    requires !ServedFromBuffer(buffer, |p|)
    ensures var r := ReadAsWritten(buffer, p, None);
      && r.eof && !r.took && r.n == |buffer| && r.p[..r.n] == buffer && r.buffer == []
  {
  }

  /** The mixed case as written: leftovers "ab", a 3-byte p holding "zzz" and
      the chunk "cdef" give "cbz" with n = 3 and leave "f" buffered. The
      stream "abcdef" comes out as "cbz" then "f": a and "de" are lost and a
      stale byte of p is returned. */
  lemma MixedReadLosesData()
    ensures ReadAsWritten([97, 98], [122, 122, 122], Some([99, 100, 101, 102]))
         == ReadOutcome([99, 98, 122], 3, [102], true, false)
  {
  }

  /** Channel.Read as intended: the chunk goes after the leftovers, and what
      does not fit is buffered. */
  function ReadCorrected(buffer: Bytes, p: Bytes, next: Option<Bytes>): (r: ReadOutcome)
  {
    var bs := Min(|p|, |buffer|);
    var p1 := buffer[..bs] + p[bs..];
    if ServedFromBuffer(buffer, |p|) then ReadOutcome(p1, bs, buffer[bs..], false, false)
    else
      match next
      case None => ReadOutcome(p1, bs, [], false, true)
      case Some(chunk) =>
        var cs := Min(|p| - bs, |chunk|);
        ReadOutcome(p1[..bs] + chunk[..cs] + p1[bs + cs..], bs + cs, chunk[cs..], true, false)
  }

  /** The corrected read preserves the stream: the bytes it returns followed
      by the new buffer are the old buffer followed by the chunk it took, and
      it never reports more than len(p). */
  lemma {:induction false} ReadCorrectedPreservesStream(buffer: Bytes, p: Bytes, next: Option<Bytes>)
    ensures var r := ReadCorrected(buffer, p, next);
      && |r.p| == |p| && r.n <= |p| && r.p[r.n..] == p[r.n..]
      && r.p[..r.n] + r.buffer == buffer + (if r.took then next.value else [])
  {
    var r := ReadCorrected(buffer, p, next);
    var bs := Min(|p|, |buffer|);
    if !ServedFromBuffer(buffer, |p|) && next.Some? {
      var chunk := next.value;
      var cs := Min(|p| - bs, |chunk|);
      assert bs == |buffer|;
      assert r.p[..r.n] == buffer + chunk[..cs];
      assert chunk == chunk[..cs] + chunk[cs..];
    } else {
      assert buffer == buffer[..bs] + buffer[bs..];
    }
  }

  /** Go's `copy(p, src)`: min(len(p), len(src)) bytes to the front of p. */
  method Copy(p: array<byte>, src: Bytes) returns (k: nat)
    modifies p
    ensures k == Min(p.Length, |src|)
    ensures p[..] == src[..k] + old(p[k..])
  {
    k := Min(p.Length, |src|);
    forall i | 0 <= i < k {
      p[i] := src[i];
    }
    assert p[..] == p[..k] + p[k..];
  }

  class Channel {
    const stream: Chan<Bytes>
    var buffer: Bytes
    var isClosed: bool
    const SendEmptyResponseOnClose: bool
    const wait: Chan?<bool>

    /** NewChannel (its second result is `wait`): the wait channel exists only
        when no empty response is sent on close. */
    constructor NewChannel(stream: Chan<Bytes>, sendEmptyResponseOnClose: bool)
      ensures this.stream == stream && buffer == [] && !isClosed
      ensures SendEmptyResponseOnClose == sendEmptyResponseOnClose
      ensures (wait == null) == sendEmptyResponseOnClose
      ensures wait != null ==> fresh(wait) && wait.items == [] && !wait.closed
    {
      this.stream := stream;
      buffer := [];
      isClosed := false;
      SendEmptyResponseOnClose := sendEmptyResponseOnClose;
      if !sendEmptyResponseOnClose {
        wait := new Chan();
      } else {
        wait := null;
      }
    }

    /** Read, as written. Waiting on an open, empty queue is excluded, and so
        is the mixed case's out-of-range slice. At EOF the spawned goroutine's
        signal on `wait` is modelled as already queued. */
    method Read(p: array<byte>) returns (n: nat, err: Option<Error>)
      requires !ServedFromBuffer(buffer, p.Length) ==> stream.items != [] || stream.closed
      requires ChunkSliceInRange(buffer, p.Length, Head(stream.items))
      requires wait != null ==> !wait.closed
      modifies this`buffer, stream, wait, p
      ensures var r := ReadAsWritten(old(buffer), old(p[..]), Head(old(stream.items)));
        && p[..] == r.p && n == r.n && buffer == r.buffer
        && err == (if r.eof then Some(EOF) else None)
        && stream.items == (if r.took then old(stream.items)[1..] else old(stream.items))
        && stream.closed == old(stream.closed)
        && (wait != null ==> wait.items == old(wait.items) + (if r.eof then [true] else []) && !wait.closed)
    {
      ghost var next := Head(stream.items);
      ghost var r := ReadAsWritten(buffer, p[..], next);
      var maxWrite := p.Length;
      n := 0;
      if |buffer| > 0 {
        n := ReadLeftovers(p);
        maxWrite := maxWrite - n;
        if maxWrite == 0 {
          return n, None;
        }
      }
      var msg := stream.Recv();
      if msg.Some? {
        var chunk := msg.value;
        assert next == Some(chunk);
        var cs := |chunk|;
        if maxWrite < cs {
          cs := maxWrite;
        }
        var k := Copy(p, chunk[..cs]);
        n := n + k;
        buffer := chunk[n..];
        return n, None;
      }
      err := Some(EOF);
      buffer := [];
      if wait != null {
        wait.Send(true);
      }
    }

    /** The leftover step: as many buffered bytes as fit go to the front of p. */
    method ReadLeftovers(p: array<byte>) returns (n: nat)
      modifies this`buffer, p
      ensures n == Min(p.Length, |old(buffer)|)
      ensures p[..] == old(buffer)[..n] + old(p[..])[n..]
      ensures buffer == old(buffer)[n..]
    {
      var bs := |buffer|;
      if p.Length < bs {
        bs := p.Length;
      }
      n := Copy(p, buffer[..bs]);
      buffer := buffer[n..];
    }

    /** Write: refused after Close; otherwise p is queued as one chunk, as it
        is. Sending on a closed queue panics, so it is excluded. */
    method Write(p: Bytes) returns (n: nat, err: Option<Error>)
      requires !isClosed ==> !stream.closed
      modifies stream
      ensures stream.closed == old(stream.closed)
      ensures isClosed ==> n == 0 && err == Some(ClosedPipe) && stream.items == old(stream.items)
      ensures !isClosed ==> n == |p| && err == None && stream.items == old(stream.items) + [p]
    {
      if isClosed {
        return 0, Some(ClosedPipe);
      }
      stream.Send(p);
      return |p|, None;
    }

    /** Close: one empty chunk first when SendEmptyResponseOnClose (unless the
        channel was already closed, when that Write is refused), then mark it
        closed and close the queue (a second close of the queue panics). */
    method Close() returns (err: Option<Error>)
      requires !stream.closed
      modifies this`isClosed, stream
      ensures isClosed && stream.closed && err == None
      ensures stream.items == old(stream.items) + (if SendEmptyResponseOnClose && !old(isClosed) then [[]] else [])
    {
      if SendEmptyResponseOnClose {
        var _, _ := Write([]);
      }
      isClosed := true;
      stream.Close();
      return None;
    }
  }
}
