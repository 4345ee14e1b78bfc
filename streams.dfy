/** streams.go: `redisStream`, a one-way stream. A write stream pushes frames
    `Name ":" p` to the broker list `Key`; a read stream hands out the chunks
    queued on `stream`, one whole chunk per Read. */
module Streams {

  import opened Wrappers
  import opened Bytes
  import opened Errors
  import opened Queues
  import opened Broker
  import opened Utils
  import opened RedisIO

  /** The close frame `"-" Name ":"`. */
  function CloseFrame(name: Bytes): (r: Bytes)
    ensures r == FormatMessage([Dash] + name, [])
  {
    [Dash] + name + [Colon]
  }

  /** The close frame decodes to the name with its close marker and an empty
      body, for every name without ':'. */
  lemma CloseFrameDecodes(name: Bytes)
    requires Colon !in name
    ensures ParseMessage(CloseFrame(name)) == Ok(Message([Dash] + name, []))
  {
    assert Colon !in [Dash] + name by {
      assert forall i :: 0 <= i < |[Dash] + name| ==> ([Dash] + name)[i] == Dash || ([Dash] + name)[i] in name;
    }
    ParseFormatRoundTrip([Dash] + name, []);
  }

  class RedisStream {
    const Key: Bytes
    const Name: Bytes
    const pool: Conn?            // nil for a read stream
    const wait: Chan?<bool>      // nil for a write stream
    const stream: Chan?<Bytes>   // nil for a write stream
    var isClosed: bool

    /** NewWriteStream. */
    constructor NewWriteStream(pool: Conn?, key: Bytes, name: Bytes)
      ensures Key == key && Name == name && this.pool == pool
      ensures wait == null && stream == null && !isClosed
    {
      Key := key;
      Name := name;
      this.pool := pool;
      wait := null;
      stream := null;
      isClosed := false;
    }

    /** NewReadStream. */
    constructor NewReadStream(name: Bytes)
      ensures Key == [] && Name == name && pool == null
      ensures wait != null && fresh(wait) && wait.items == [] && !wait.closed
      ensures stream != null && fresh(stream) && stream.items == [] && !stream.closed
      ensures !isClosed
    {
      Key := [];
      Name := name;
      pool := null;
      wait := new Chan();
      stream := new Chan();
      isClosed := false;
    }

    /** Write: refused on a read stream, then after close; otherwise one RPUSH
        of `Name ":" p` to Key, and len(p) once the broker took it. */
    method Write(p: Bytes) returns (n: nat, err: Option<Error>)
      modifies pool
      ensures pool == null ==> n == 0 && err == Some(WriteOnReadonlyStream)
      ensures pool != null && isClosed ==>
        n == 0 && err == Some(ClosedPipe) && pool.log == old(pool.log) && pool.store == old(pool.store)
      ensures pool != null && !isClosed ==>
        var o := RunScript(old(pool.store), pool.failure, [RPush(Key, [Text(FormatMessage(Name, p))])]);
        && pool.store == o.store && pool.log == old(pool.log) + o.delivered
        && err == o.err
        && n == (if err.None? then |p| else 0)
    {
      if pool == null {
        return 0, Some(WriteOnReadonlyStream);
      }
      if isClosed {
        return 0, Some(ClosedPipe);
      }
      var msg := [Text(FormatMessage(Name, p))];
      var r := pool.Do(RPush(Key, msg));
      if r.Err? {
        return 0, Some(r.error);
      }
      return |p|, None;
    }

    /** Read: refused on a write stream; EOF once closed; otherwise the oldest
        queued chunk, whole, into p (a chunk longer than p makes `p[:n]` panic,
        so it is excluded; so is waiting on an open, empty queue). Once the
        queue is closed and drained, signal `wait`, mark the stream closed and
        return EOF. */
    method Read(p: array<byte>) returns (n: nat, err: Option<Error>)
      requires stream != null && !isClosed ==> stream.items != [] || stream.closed
      requires stream != null && !isClosed && stream.items != [] ==> |stream.items[0]| <= p.Length
      requires stream != null && !isClosed && stream.items == [] ==> wait != null && !wait.closed
      modifies this, stream, wait, p
      ensures stream == null ==>
        n == 0 && err == Some(ReadOnWriteonlyStream) && p[..] == old(p[..]) && isClosed == old(isClosed)
      ensures stream != null && old(isClosed) ==>
        n == 0 && err == Some(EOF) && isClosed && stream.items == old(stream.items) && p[..] == old(p[..])
      ensures stream != null && !old(isClosed) && old(stream.items) != [] ==>
        && n == |old(stream.items)[0]| && err == None
        && p[..n] == old(stream.items)[0] && p[n..] == old(p[n..])
        && stream.items == old(stream.items)[1..] && !isClosed
      ensures stream != null && !old(isClosed) && old(stream.items) == [] ==>
        && n == 0 && err == Some(EOF) && isClosed && p[..] == old(p[..])
        && stream.items == old(stream.items)
        && wait.items == old(wait.items) + [true] && wait.closed == old(wait.closed)
      ensures stream != null ==> stream.closed == old(stream.closed)
      ensures wait != null && (stream == null || old(isClosed) || old(stream.items) != []) ==>
        wait.items == old(wait.items) && wait.closed == old(wait.closed)
    {
      if stream == null {
        return 0, Some(ReadOnWriteonlyStream);
      }
      if isClosed {
        return 0, Some(EOF);
      }
      var msg := stream.Recv();
      if msg.Some? {
        n := |msg.value|;
        forall i | 0 <= i < n {
          p[i] := msg.value[i];
        }
        return n, None;
      }
      wait.Send(true);
      isClosed := true;
      return 0, Some(EOF);
    }

    /** Close, up to its wait: on a read stream, close the chunk queue (closing
        it a second time panics, so that is excluded); the rest of Close runs
        once the reader has drained the queue, in ResumeClose. A write stream
        has no queue and its Close runs to the end here: one RPUSH of the close
        frame, and the stream is marked closed once the broker took it. */
    method Close() returns (err: Option<Error>)
      requires stream != null ==> !stream.closed
      modifies stream, pool, this
      ensures stream != null ==> stream.closed && stream.items == old(stream.items) && err == None && isClosed == old(isClosed)
      ensures stream != null && pool != null ==>
        pool.store == old(pool.store) && pool.log == old(pool.log) && pool.failure == old(pool.failure)
      ensures stream == null && pool == null ==> err == None && isClosed
      ensures stream == null && pool != null ==>
        var o := RunScript(old(pool.store), pool.failure, [RPush(Key, [Text(CloseFrame(Name))])]);
        && pool.store == o.store && pool.log == old(pool.log) + o.delivered
        && pool.failure == old(pool.failure)
        && err == o.err
        && isClosed == (o.err.None? || old(isClosed))
    {
      if stream != null {
        stream.Close();
        return None;
      }
      err := Finish();
    }

    /** The rest of Close, once `wait` holds the reader's signal. */
    method ResumeClose() returns (err: Option<Error>)
      requires stream != null && stream.closed
      requires wait != null && wait.items != []
      modifies wait, pool, this
      ensures wait.items == old(wait.items)[1..] && wait.closed == old(wait.closed)
      ensures pool == null ==> err == None && isClosed
      ensures pool != null ==>
        var o := RunScript(old(pool.store), pool.failure, [RPush(Key, [Text(CloseFrame(Name))])]);
        && pool.store == o.store && pool.log == old(pool.log) + o.delivered
        && pool.failure == old(pool.failure)
        && err == o.err
        && isClosed == (o.err.None? || old(isClosed))
    {
      var token := wait.Recv();
      err := Finish();
    }

    /** The tail Close and ResumeClose share: push the close frame if there is
        a pool, then mark the stream closed. */
    method Finish() returns (err: Option<Error>)
      modifies pool, this`isClosed
      ensures pool == null ==> err == None && isClosed
      ensures pool != null ==>
        var o := RunScript(old(pool.store), pool.failure, [RPush(Key, [Text(CloseFrame(Name))])]);
        && pool.store == o.store && pool.log == old(pool.log) + o.delivered
        && pool.failure == old(pool.failure)
        && err == o.err
        && isClosed == (o.err.None? || old(isClosed))
    {
      if pool != null {
        var r := pool.Do(RPush(Key, [Text(CloseFrame(Name))]));
        if r.Err? {
          return Some(r.error);
        }
      }
      isClosed := true;
      return None;
    }
  }
}
