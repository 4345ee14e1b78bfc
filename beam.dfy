/** beam.go: `Streamer`, the demultiplexer. Its `start` loop pops frames from
    `OutKey` and routes each body to the queue of the stream it names,
    creating that queue on first use; an empty body closes every queue and
    ends the loop. `newListener` forwards one name's queue to the handler
    queue `OpenRead` installed for it. */
module Beam {

  import opened Wrappers
  import opened Bytes
  import opened Errors
  import opened Queues
  import opened Utils
  import opened RedisIO
  import Streams

  /** What one BLPOP of the loop yields: a payload, or the error redigo
      reports (a timeout included). */
  datatype Arrival = Popped(payload: Bytes) | PopFailed(err: Error)

  /** How the loop treats one arrival. */
  datatype Frame = Failed(err: Error) | Malformed | Terminator | Data(name: Bytes, body: Bytes)

  function Classify(a: Arrival): Frame
  {
    match a
    case PopFailed(e) => Failed(e)
    case Popped(payload) =>
      match ParseMessage(payload)
      case Err(_) => Malformed
      case Ok(m) => if m.Body == [] then Terminator else Data(m.Id, m.Body)
  }

  /** A frame without ':' is malformed; one whose body, after the first ':',
      is empty is the terminator; any other is data for the name before that
      ':', and re-encodes to the payload. */
  lemma ClassifyMeaning(a: Arrival)
    ensures Classify(a).Failed? <==> a.PopFailed?
    ensures Classify(a).Malformed? <==> a.Popped? && Colon !in a.payload
    ensures Classify(a).Terminator? <==> a.Popped? && Colon in a.payload && ParseMessage(a.payload).value.Body == []
    ensures Classify(a).Data? ==>
      && a.Popped? && Classify(a).body != [] && Colon !in Classify(a).name
      && a.payload == FormatMessage(Classify(a).name, Classify(a).body)
  {
  }

  /** A frame written for `name` with a non-empty body is routed to `name`
      with that body, whatever the body holds. */
  lemma WrittenFrameRoutes(name: Bytes, body: Bytes)
    requires Colon !in name && body != []
    ensures Classify(Popped(FormatMessage(name, body))) == Data(name, body)
  {
    ParseFormatRoundTrip(name, body);
  }

  /** Both close frames, a writer's `name ":"` and a stream's `"-" name ":"`,
      carry an empty body, so the loop treats either as the terminator and
      closes every reader, not just the named one. */
  lemma CloseFramesTerminate(name: Bytes)
    requires Colon !in name
    ensures Classify(Popped(FormatMessage(name, []))) == Terminator
    ensures Classify(Popped(Streams.CloseFrame(name))) == Terminator
  {
    ParseFormatRoundTrip(name, []);
    Streams.CloseFrameDecodes(name);
  }

  /** The frames of a run of arrivals, in order. */
  function Frames(a: seq<Arrival>): (fs: seq<Frame>)
    ensures |fs| == |a| && forall i :: 0 <= i < |a| ==> fs[i] == Classify(a[i])
  {
    seq(|a|, i requires 0 <= i < |a| => Classify(a[i]))
  }

  /** The frames the loop consumes: up to and including the first
      terminator. */
  function Used(fs: seq<Frame>): (k: nat)
    ensures k <= |fs|
    ensures forall i :: 0 <= i < k - 1 ==> !fs[i].Terminator?
    ensures k < |fs| ==> k > 0 && fs[k - 1].Terminator?
  {
    if fs == [] then 0
    else if fs[0].Terminator? then 1
    else 1 + Used(fs[1..])
  }

  /** Whether the loop meets a terminator. */
  predicate Terminates(fs: seq<Frame>)
  {
    exists i :: 0 <= i < |fs| && fs[i].Terminator?
  }

  /** What one frame sends to `name`, the names it routes to and the errors
      it reports. */
  function FrameBodies(name: Bytes, f: Frame): seq<Bytes>
  {
    if f.Data? && f.name == name then [f.body] else []
  }

  function FrameNames(f: Frame): set<Bytes>
  {
    if f.Data? then {f.name} else {}
  }

  function FrameErrors(f: Frame): seq<Error>
  {
    match f
    case Failed(e) => [e]
    case Malformed => [InvalidResponseType]
    case _ => []
  }

  /** The bodies routed to `name`, in arrival order, before the first
      terminator. */
  function SentTo(name: Bytes, fs: seq<Frame>): seq<Bytes>
  {
    if fs == [] || fs[0].Terminator? then []
    else FrameBodies(name, fs[0]) + SentTo(name, fs[1..])
  }

  /** The names that get a data frame before the first terminator. */
  function NamesIn(fs: seq<Frame>): set<Bytes>
  {
    if fs == [] || fs[0].Terminator? then {}
    else FrameNames(fs[0]) + NamesIn(fs[1..])
  }

  /** The errors the loop reports on its error channel, in order: failed pops
      and frames without ':'; it carries on after each. */
  function ErrorsOf(fs: seq<Frame>): seq<Error>
  {
    if fs == [] || fs[0].Terminator? then []
    else FrameErrors(fs[0]) + ErrorsOf(fs[1..])
  }

  /** The reader queues' contents, name by name, after one frame. */
  function Deliver(q: map<Bytes, seq<Bytes>>, f: Frame): map<Bytes, seq<Bytes>>
  {
    if f.Data? then q[f.name := (if f.name in q then q[f.name] else []) + [f.body]] else q
  }

  /** The reader queues' contents after the loop, as a map update per frame. */
  function Demux(q: map<Bytes, seq<Bytes>>, fs: seq<Frame>): map<Bytes, seq<Bytes>>
    decreases |fs|
  {
    if fs == [] || fs[0].Terminator? then q
    else Demux(Deliver(q, fs[0]), fs[1..])
  }

  /** One frame's update, key by key. */
  lemma DeliverAt(q: map<Bytes, seq<Bytes>>, f: Frame, n: Bytes)
    ensures n in Deliver(q, f) <==> n in q || n in FrameNames(f)
    ensures n in Deliver(q, f) ==>
      Deliver(q, f)[n] == (if n in q then q[n] else []) + FrameBodies(n, f)
  {
  }

  /** The loop's table agrees with the per-name reading: it holds the names it
      held plus those the frames named, and each queue is what it held
      followed by the bodies sent to that name, in arrival order. */
  lemma {:induction false} DemuxIsPerNameFilter(q: map<Bytes, seq<Bytes>>, fs: seq<Frame>, n: Bytes)
    ensures n in Demux(q, fs) <==> n in q || n in NamesIn(fs)
    ensures n in Demux(q, fs) ==> Demux(q, fs)[n] == (if n in q then q[n] else []) + SentTo(n, fs)
    decreases |fs|
  {
    if fs != [] && !fs[0].Terminator? {
      var q' := Deliver(q, fs[0]);
      DeliverAt(q, fs[0], n);
      DemuxIsPerNameFilter(q', fs[1..], n);
    }
  }

  /** One step of the loop in terms of the specification functions: a frame
      other than the terminator advances them by its own effect; the
      terminator ends them all. */
  lemma StepSpec(fs: seq<Frame>, i: nat, q: map<Bytes, seq<Bytes>>)
    requires i < |fs|
    ensures !fs[i].Terminator? ==>
      && Demux(Deliver(q, fs[i]), fs[i + 1..]) == Demux(q, fs[i..])
      && ErrorsOf(fs[i..]) == FrameErrors(fs[i]) + ErrorsOf(fs[i + 1..])
      && Used(fs[i..]) == 1 + Used(fs[i + 1..])
    ensures fs[i].Terminator? ==>
      Demux(q, fs[i..]) == q && ErrorsOf(fs[i..]) == [] && Used(fs[i..]) == 1
  {
    assert fs[i..][0] == fs[i];
    assert fs[i..][1..] == fs[i + 1..];
  }

  /** Where the loop stands after `used` frames, none of them a terminator:
      the queues and the errors, carried on by the specification functions
      over the frames left, give those of the whole run. */
  predicate RunSoFar(fs: seq<Frame>, used: nat, q0: map<Bytes, seq<Bytes>>, e0: seq<Error>,
                     q: map<Bytes, seq<Bytes>>, e: seq<Error>)
  {
    && used <= |fs|
    && used + Used(fs[used..]) == Used(fs)
    && e + ErrorsOf(fs[used..]) == e0 + ErrorsOf(fs)
    && Demux(q, fs[used..]) == Demux(q0, fs)
    && forall j :: 0 <= j < used ==> !fs[j].Terminator?
  }

  /** One turn of the loop keeps RunSoFar, or ends it on a terminator with the
      whole run's results. */
  lemma RunStep(fs: seq<Frame>, used: nat, q0: map<Bytes, seq<Bytes>>, e0: seq<Error>,
                q: map<Bytes, seq<Bytes>>, e: seq<Error>, q': map<Bytes, seq<Bytes>>, e': seq<Error>)
    requires used < |fs| && RunSoFar(fs, used, q0, e0, q, e)
    requires !fs[used].Terminator? ==> q' == Deliver(q, fs[used]) && e' == e + FrameErrors(fs[used])
    requires fs[used].Terminator? ==> e' == e
    ensures !fs[used].Terminator? ==> RunSoFar(fs, used + 1, q0, e0, q', e')
    ensures fs[used].Terminator? ==>
      && used + 1 == Used(fs) && e' == e0 + ErrorsOf(fs) && Demux(q0, fs) == q && Terminates(fs)
  {
    if fs[used].Terminator? {
      RunStepTerminator(fs, used, q0, e0, q, e);
    } else {
      RunStepData(fs, used, q0, e0, q, e, q', e');
    }
  }

  lemma RunStepTerminator(fs: seq<Frame>, used: nat, q0: map<Bytes, seq<Bytes>>, e0: seq<Error>,
                          q: map<Bytes, seq<Bytes>>, e: seq<Error>)
    requires used < |fs| && RunSoFar(fs, used, q0, e0, q, e) && fs[used].Terminator?
    ensures used + 1 == Used(fs) && e == e0 + ErrorsOf(fs) && Demux(q0, fs) == q && Terminates(fs)
  {
    StepSpec(fs, used, q);
    assert e + ErrorsOf(fs[used..]) == e;
  }

  lemma RunStepData(fs: seq<Frame>, used: nat, q0: map<Bytes, seq<Bytes>>, e0: seq<Error>,
                    q: map<Bytes, seq<Bytes>>, e: seq<Error>, q': map<Bytes, seq<Bytes>>, e': seq<Error>)
    requires used < |fs| && RunSoFar(fs, used, q0, e0, q, e) && !fs[used].Terminator?
    requires q' == Deliver(q, fs[used]) && e' == e + FrameErrors(fs[used])
    ensures RunSoFar(fs, used + 1, q0, e0, q', e')
  {
    StepSpec(fs, used, q);
    var fe := FrameErrors(fs[used]);
    var rest := ErrorsOf(fs[used + 1..]);
    assert e' + rest == e + (fe + rest);
  }

  /** The loop ran out of frames without a terminator. */
  lemma RunDone(fs: seq<Frame>, q0: map<Bytes, seq<Bytes>>, e0: seq<Error>, q: map<Bytes, seq<Bytes>>, e: seq<Error>)
    requires RunSoFar(fs, |fs|, q0, e0, q, e)
    ensures |fs| == Used(fs) && e == e0 + ErrorsOf(fs) && q == Demux(q0, fs) && !Terminates(fs)
  {
    assert fs[|fs|..] == [];
  }

  /** A name gets bodies exactly when it is among the names the loop saw. */
  lemma {:induction false} SentToOnlyNamesIn(name: Bytes, fs: seq<Frame>)
    ensures SentTo(name, fs) != [] <==> name in NamesIn(fs)
  {
    if fs != [] {
      SentToOnlyNamesIn(name, fs[1..]);
    }
  }

  /** Per-name order is arrival order: the data frame at position i for
      `name` is delivered as that name's k-th body, where k counts that
      name's earlier frames. */
  lemma {:induction false} SentToKeepsArrivalOrder(name: Bytes, fs: seq<Frame>, i: nat)
    requires i < |fs| && fs[i].Data? && fs[i].name == name
    requires forall j :: 0 <= j < i ==> !fs[j].Terminator?
    ensures |SentTo(name, fs[..i])| < |SentTo(name, fs)|
    ensures SentTo(name, fs)[|SentTo(name, fs[..i])|] == fs[i].body
  {
    if i == 0 {
      assert fs[..0] == [];
    } else {
      assert fs[1..][..i - 1] == fs[..i][1..];
      SentToKeepsArrivalOrder(name, fs[1..], i - 1);
    }
  }

  /** A frame for another name, anywhere before the first terminator, does
      not change what `name` receives. */
  lemma {:induction false} SentToIgnoresOtherNames(name: Bytes, fs: seq<Frame>, i: nat)
    requires i < |fs| && fs[i].Data? && fs[i].name != name
    ensures SentTo(name, fs) == SentTo(name, fs[..i] + fs[i + 1..])
  {
    if i > 0 {
      assert (fs[..i] + fs[i + 1..])[0] == fs[0];
      assert (fs[..i] + fs[i + 1..])[1..] == fs[1..][..i - 1] + fs[1..][i..];
      SentToIgnoresOtherNames(name, fs[1..], i - 1);
    } else {
      assert fs[..0] + fs[1..] == fs[1..];
    }
  }

  class Streamer {
    const InKey: Bytes
    const OutKey: Bytes
    var readers: map<Bytes, Chan<Bytes>>
    var handlers: map<Bytes, Chan<Bytes>>
    var errs: seq<Error>   // what the loop sent on its error channel

    /** Each name has its own reader queue, and no reader queue is a handler
        queue. */
    ghost predicate Valid()
      reads this
    {
      && (forall n, m :: n in readers && m in readers && n != m ==> readers[n] != readers[m])
      && (forall n, m :: n in readers && m in handlers ==> readers[n] != handlers[m])
    }

    /** No reader queue is closed yet. */
    ghost predicate Open()
      reads this, readers.Values
    {
      forall n :: n in readers ==> !readers[n].closed
    }

    /** What each reader queue holds. */
    ghost function Snapshot(): map<Bytes, seq<Bytes>>
      reads this, readers.Values
    {
      map n | n in readers :: readers[n].items
    }

    /** NewStreamer, before its loop starts. */
    constructor NewStreamer(inKey: Bytes, outKey: Bytes)
      ensures Valid() && Open()
      ensures InKey == inKey && OutKey == outKey
      ensures readers == map[] && handlers == map[] && errs == []
    {
      InKey := inKey;
      OutKey := outKey;
      readers := map[];
      handlers := map[];
      errs := [];
    }

    /** OpenRead: a fresh handler queue under `name`, replacing any earlier
        one, and a reader on it. */
    method OpenRead(name: Bytes) returns (r: RedisReader)
      requires Valid()
      modifies this`handlers
      ensures Valid()
      ensures fresh(r) && fresh(r.c) && r.c.items == [] && !r.c.closed
      ensures r.name == name && r.buffer == [] && !r.isClosed
      ensures handlers == old(handlers)[name := r.c]
    {
      var c := new Chan();
      handlers := handlers[name := c];
      r := new RedisReader(c, name);
    }

    /** OpenWrite (declared twice in beam.go, both the same): no writer. */
    method OpenWrite(name: Bytes) returns (w: RedisWriter?)
      ensures w == null
    {
      w := null;
    }

    /** ReadFrom: nothing is copied and no error is reported. */
    method ReadFrom(src: Bytes, name: Bytes) returns (n: int, err: Option<Error>)
      ensures n == 0 && err == None
    {
      n, err := 0, None;
    }

    /** WriteTo: not implemented. */
    method WriteTo(name: Bytes) returns (n: int, err: Option<Error>)
      ensures n == 0 && err == Some(NotImplemented)
    {
      n, err := 0, Some(NotImplemented);
    }

    /** OpenReadWrite: no stream. */
    method OpenReadWrite(name: Bytes) returns (rw: Chan?<Bytes>)
      ensures rw == null
    {
      rw := null;
    }

    /** Close(name): does nothing. */
    method Close(name: Bytes)
      ensures unchanged(this)
    {
    }

    /** Shutdown: not implemented. */
    method Shutdown() returns (err: Option<Error>)
      ensures err == Some(NotImplemented)
    {
      err := Some(NotImplemented);
    }

    /** The terminator's step: close every reader queue, each exactly once. */
    method CloseReaders()
      requires Valid() && Open()
      modifies readers.Values
      ensures forall n :: n in readers ==> readers[n].closed && readers[n].items == old(readers[n].items)
    {
      var names := readers.Keys;
      while names != {}
        invariant names <= readers.Keys
        invariant forall n :: n in readers ==> readers[n].items == old(readers[n].items)
        invariant forall n :: n in readers ==> readers[n].closed == (n !in names)
        decreases |names|
      {
        var n :| n in names;
        readers[n].Close();
        names := names - {n};
      }
    }

    /** A data frame's step: the body goes to its name's queue, made on first
        use. */
    method Push(name: Bytes, body: Bytes)
      requires Valid() && Open()
      modifies this`readers, readers.Values
      ensures Valid() && Open()
      ensures readers.Keys == old(readers.Keys) + {name}
      ensures forall n :: n in old(readers) ==> readers[n] == old(readers[n])
      ensures name !in old(readers) ==> fresh(readers[name])
      ensures Snapshot() == Deliver(old(Snapshot()), Data(name, body))
    {
      var c: Chan<Bytes>;
      if name in readers {
        c := readers[name];
      } else {
        c := new Chan();
        readers := readers[name := c];
      }
      c.Send(body);
      ghost var q := Deliver(old(Snapshot()), Data(name, body));
      assert Snapshot().Keys == q.Keys;
      forall n | n in q
        ensures Snapshot()[n] == q[n]
      {
        if n != name {
          assert readers[n] != c;
        }
      }
    }

    /** One turn of the loop on one arrival. */
    method Route(a: Arrival) returns (stop: bool)
      requires Valid() && Open()
      modifies this`readers, this`errs, readers.Values
      ensures Valid()
      ensures stop == Classify(a).Terminator?
      ensures !stop ==> Open()
      ensures stop ==> forall n :: n in readers ==> readers[n].closed
      ensures errs == old(errs) + FrameErrors(Classify(a))
      ensures readers.Keys == old(readers.Keys) + FrameNames(Classify(a))
      ensures forall n :: n in old(readers) ==> readers[n] == old(readers[n])
      ensures forall n :: n in readers && n !in old(readers) ==> fresh(readers[n])
      ensures Snapshot() == Deliver(old(Snapshot()), Classify(a))
    {
      match Classify(a)
      case Failed(e) =>
        errs := errs + [e];
        return false;
      case Malformed =>
        errs := errs + [InvalidResponseType];
        return false;
      case Terminator =>
        CloseReaders();
        return true;
      case Data(name, body) =>
        Push(name, body);
        return false;
    }

    /** The `start` loop over the arrivals it pops, until the first
        terminator or the end of the arrivals; `used` is how many it took. */
    method Run(a: seq<Arrival>) returns (used: nat)
      requires Valid() && Open()
      modifies this`readers, this`errs, readers.Values
      ensures Valid()
      ensures used == Used(Frames(a))
      ensures errs == old(errs) + ErrorsOf(Frames(a))
      ensures Snapshot() == Demux(old(Snapshot()), Frames(a))
      ensures forall n :: n in old(readers) ==> n in readers && readers[n] == old(readers[n])
      ensures forall n :: n in readers && n !in old(readers) ==> fresh(readers[n])
      ensures forall n :: n in readers ==> readers[n].closed == Terminates(Frames(a))
    {
      ghost var r0 := readers;
      ghost var q0 := Snapshot();
      ghost var e0 := errs;
      ghost var fs := Frames(a);
      used := 0;
      while used < |a|
        invariant 0 <= used <= |a|
        invariant Valid() && Open()
        invariant forall n :: n in r0 ==> n in readers && readers[n] == r0[n]
        invariant forall n :: n in readers && n !in r0 ==> fresh(readers[n])
        invariant RunSoFar(fs, used, q0, e0, Snapshot(), errs)
      {
        ghost var q := Snapshot();
        ghost var e := errs;
        var stop := Route(a[used]);
        RunStep(fs, used, q0, e0, q, e, Snapshot(), errs);
        used := used + 1;
        if stop {
          return;
        }
      }
      RunDone(fs, q0, e0, Snapshot(), errs);
    }

    /** One turn of a listener for `name`: forward the oldest message on the
        name's reader queue to the handler registered at that moment, if any,
        or drop it; once the reader queue is closed and drained, close that
        handler. */
    method ListenerStep(name: Bytes) returns (done: bool)
      requires Valid() && name in readers
      requires readers[name].items != [] || readers[name].closed
      requires name in handlers ==> !handlers[name].closed
      modifies readers[name], if name in handlers then {handlers[name]} else {}
      ensures done == (old(readers[name].items) == [])
      ensures readers[name].closed == old(readers[name].closed)
      ensures !done ==> readers[name].items == old(readers[name].items)[1..]
      ensures !done && name in handlers ==>
        handlers[name].items == old(handlers[name].items) + [old(readers[name].items)[0]] && !handlers[name].closed
      ensures done && name in handlers ==>
        handlers[name].closed && handlers[name].items == old(handlers[name].items)
    {
      var c := readers[name];
      var msg := c.Recv();
      if msg.Some? {
        if name in handlers {
          handlers[name].Send(msg.value);
        }
        return false;
      }
      if name in handlers {
        handlers[name].Close();
      }
      return true;
    }
  }
}
