/** io.go: the frame encoder `formatMessage`, and the byte reader and writer
    that sit on a queue of chunks (`redisReader`, `redisWriter`). */
module RedisIO {

  import opened Wrappers
  import opened Bytes
  import opened Errors
  import opened Queues
  import opened Utils

  /** formatMessage: the frame `name ":" msg`. */
  function FormatMessage(name: Bytes, msg: Bytes): (r: Bytes)
    ensures |r| == |name| + 1 + |msg|
    ensures r[..|name|] == name && r[|name|] == Colon && r[|name| + 1..] == msg
  {
    name + [Colon] + msg
  }

  /** Encoding then decoding gives back the name and the body, for every name
      without ':' and every body (the empty one and bodies holding ':'
      included). */
  lemma ParseFormatRoundTrip(name: Bytes, body: Bytes)
    requires Colon !in name
    ensures ParseMessage(FormatMessage(name, body)) == Ok(Message(name, body))
  {
    var payload := FormatMessage(name, body);
    assert payload[|name|] == Colon;
    var m := ParseMessage(payload).value;
    assert |m.Id| == |name| by {
      assert forall i :: 0 <= i < |name| ==> payload[i] == name[i];
      assert payload[|m.Id|] == Colon;
    }
    assert m.Id == payload[..|name|];
  }

  /** Decoding then re-encoding gives back every payload that holds a ':'. */
  lemma FormatParseRoundTrip(payload: Bytes)
    requires Colon in payload
    ensures ParseMessage(payload).Ok?
    ensures FormatMessage(ParseMessage(payload).value.Id, ParseMessage(payload).value.Body) == payload
  {
  }

  /** The frame a writer's Close sends, `name ":"`, is the frame of a Write
      of no bytes, and it decodes to an empty body. */
  lemma CloseFrameIsEmptyWrite(name: Bytes)
    requires Colon !in name
    ensures FormatMessage(name, []) == name + [Colon]
    ensures ParseMessage(name + [Colon]) == Ok(Message(name, []))
  {
    ParseFormatRoundTrip(name, []);
  }

  /** The chunks of `s` laid end to end. */
  function Concat(s: seq<Bytes>): Bytes
  {
    if s == [] then [] else Concat(s[..|s| - 1]) + s[|s| - 1]
  }

  function Min(a: nat, b: nat): nat
  {
    if a < b then a else b
  }

  /** The error `bytes.Buffer.Read` returns: EOF for an empty buffer and a
      non-empty destination. */
  function BufferReadError(buffer: Bytes, room: nat): Option<Error>
  {
    if buffer == [] && room > 0 then Some(EOF) else None
  }

  class RedisReader {
    const c: Chan<Bytes>
    const name: Bytes
    var buffer: Bytes
    var isClosed: bool
    ghost var arrived: seq<Bytes>  // the chunks this reader took from c, in order
    ghost var delivered: Bytes     // the bytes its Reads returned, in order

    ghost predicate Valid()
      reads this
    {
      delivered + buffer == Concat(arrived)
    }

    /** newRedisReader. */
    constructor (c: Chan<Bytes>, key: Bytes)
      ensures Valid()
      ensures this.c == c && name == key && buffer == [] && !isClosed
      ensures arrived == [] && delivered == []
    {
      this.c := c;
      name := key;
      buffer := [];
      isClosed := false;
      arrived := [];
      delivered := [];
    }

    /** Read: EOF once closed with nothing buffered; otherwise take at most one
        chunk from the queue into the buffer (waiting for one while the queue is
        open and empty, which is excluded here) and return at most len(p) bytes
        from the front of the buffer. */
    method Read(p: array<byte>) returns (n: nat, err: Option<Error>)
      requires Valid()
      requires !(isClosed && buffer == []) ==> c.items != [] || c.closed
      modifies this, c, p
      ensures Valid()
      ensures n <= p.Length
      ensures p[n..] == old(p[n..])
      ensures delivered == old(delivered) + p[..n]
      ensures delivered <= Concat(arrived)
      ensures isClosed == old(isClosed) && c.closed == old(c.closed)
      ensures old(isClosed && buffer == []) ==>
        n == 0 && err == Some(EOF) && buffer == old(buffer) && arrived == old(arrived) && c.items == old(c.items)
      ensures !old(isClosed && buffer == []) ==>
        && c.items == (if old(c.items) == [] then [] else old(c.items)[1..])
        && arrived == old(arrived) + (if old(c.items) == [] then [] else [old(c.items)[0]])
        && var all := old(buffer) + (if old(c.items) == [] then [] else old(c.items)[0]);
        && n == Min(p.Length, |all|)
        && p[..n] == all[..n]
        && buffer == all[n..]
        && err == BufferReadError(all, p.Length)
    {
      if isClosed && |buffer| == 0 {
        return 0, Some(EOF);
      }
      var msg := c.Recv();
      if msg.Some? {
        ghost var before := arrived;
        buffer := buffer + msg.value;
        arrived := arrived + [msg.value];
        assert arrived[..|arrived| - 1] == before;
      }
      n, err := ReadBuffer(p);
    }

    /** `bytes.Buffer.Read`: the first min(len(p), len(buffer)) buffered bytes
        move into p. */
    method ReadBuffer(p: array<byte>) returns (n: nat, err: Option<Error>)
      requires Valid()
      modifies this`buffer, this`delivered, p
      ensures Valid()
      ensures n == Min(p.Length, |old(buffer)|)
      ensures p[..n] == old(buffer)[..n] && p[n..] == old(p[n..])
      ensures buffer == old(buffer)[n..]
      ensures delivered == old(delivered) + p[..n]
      ensures err == BufferReadError(old(buffer), p.Length)
    {
      n := Min(p.Length, |buffer|);
      forall i | 0 <= i < n {
        p[i] := buffer[i];
      }
      err := BufferReadError(buffer, p.Length);
      delivered := delivered + buffer[..n];
      assert buffer == buffer[..n] + buffer[n..];
      buffer := buffer[n..];
    }

    /** Close only sets the flag; buffered bytes are still served. */
    method Close() returns (err: Option<Error>)
      modifies this
      ensures isClosed && err == None
      ensures buffer == old(buffer) && arrived == old(arrived) && delivered == old(delivered)
    {
      isClosed := true;
      err := None;
    }
  }

  class RedisWriter {
    const c: Chan<Bytes>
    const name: Bytes
    var isClosed: bool

    /** newRedisWriter. */
    constructor (c: Chan<Bytes>, key: Bytes)
      ensures this.c == c && name == key && !isClosed
    {
      this.c := c;
      name := key;
      isClosed := false;
    }

    /** Write: refused after Close; otherwise one frame `name ":" p` is queued
        and all of p is reported written. */
    method Write(p: Bytes) returns (n: nat, err: Option<Error>)
      requires !isClosed ==> !c.closed
      modifies c
      ensures c.closed == old(c.closed)
      ensures isClosed ==> n == 0 && err == Some(ClosedPipe) && c.items == old(c.items)
      ensures !isClosed ==> n == |p| && err == None && c.items == old(c.items) + [FormatMessage(name, p)]
    {
      if isClosed {
        return 0, Some(ClosedPipe);
      }
      c.Send(FormatMessage(name, p));
      return |p|, None;
    }

    /** Close: sets the flag and queues `name ":"` (the frame of an empty
        Write), whether or not the writer was closed before. */
    method Close() returns (err: Option<Error>)
      requires !c.closed
      modifies this, c
      ensures isClosed && err == None && !c.closed
      ensures c.items == old(c.items) + [FormatMessage(name, [])]
    {
      isClosed := true;
      c.Send(FormatMessage(name, []));
      err := None;
    }
  }
}
