/** job.go: the client side of a job. NewJob registers the name on the job
    list, Start writes arguments, environment and the start signal, Wait
    returns once the worker has published a status, and watch dispatches the
    frames the worker sends back. */
module Jobs {

  import opened Wrappers
  import opened Bytes
  import opened Errors
  import opened Broker
  import opened Utils
  import opened Paths
  import opened RedisIO

  /** The list of job names, whose indices are the job ids. */
  const JobsKey: Bytes := Ascii("/jobs")

  /** The list the start signals are pushed to. */
  const StartKey: Bytes := Ascii("/jobs/start")

  /** keyParts: `/jobs/<id>` joined with the parts as a path. */
  function KeyParts(id: nat, parts: seq<Bytes>): (key: Bytes)
    ensures |key| > 0
  {
    Join([Ascii("/jobs/") + Decimal(id)] + parts)
  }

  /** Two elements, the second non-empty, join with one '/'. */
  lemma JoinTwo(p: Bytes, q: Bytes)
    requires p != [] && q != []
    ensures Join([p, q]) == p + [Slash] + q
  {
    assert [p][..0] == [];
    assert Join([p]) == p;
    assert [p, q][..1] == [p];
  }

  /** The key layout on an example: job 3's wait list is "/jobs/3/wait". */
  lemma KeyPartsExample()
    ensures KeyParts(3, [Ascii("wait")]) == Ascii("/jobs/3/wait")
  {
    assert Decimal(3) == [51];
    assert [Ascii("/jobs/") + Decimal(3)] + [Ascii("wait")] == [Ascii("/jobs/") + [51], Ascii("wait")];
    JoinTwo(Ascii("/jobs/") + [51], Ascii("wait"));
    assert Ascii("/jobs/3/wait") == [47, 106, 111, 98, 115, 47, 51, 47, 119, 97, 105, 116];
    assert Ascii("/jobs/") + [51] + [Slash] + Ascii("wait") == [47, 106, 111, 98, 115, 47, 51, 47, 119, 97, 105, 116];
  }

  /** A job id renders as a path segment. */
  lemma DecimalIsSegment(id: nat)
    ensures Segment(Decimal(id))
  {
    DecimalDigits(id);
    assert forall i :: 0 <= i < |Decimal(id)| ==> Decimal(id)[i] != Slash;
  }

  /** A job's keys are the `/jobs` path followed by the id and the parts. */
  lemma KeyPartsRegroup(id: nat, parts: seq<Bytes>)
    ensures KeyParts(id, parts) == Join([JobsKey, Decimal(id)] + parts)
  {
    DecimalIsSegment(id);
    assert Ascii("/jobs/") + Decimal(id) == JobsKey + [Slash] + Decimal(id);
    JoinRegroup(JobsKey, Decimal(id), parts);
  }

  /** Splitting a job's key at '/' gives the pieces of `/jobs`, the id,
      then the parts. */
  lemma KeyPartsSplit(id: nat, parts: seq<Bytes>)
    requires Segments(parts)
    ensures Split(KeyParts(id, parts), Slash) == Split(JobsKey, Slash) + ([Decimal(id)] + parts)
  {
    KeyPartsRegroup(id, parts);
    DecimalIsSegment(id);
    assert [JobsKey, Decimal(id)] + parts == [JobsKey] + ([Decimal(id)] + parts);
    SplitJoin(JobsKey, [Decimal(id)] + parts);
  }

  /** Keys built from segments determine the job and the parts: two jobs
      never share a key. */
  lemma KeyPartsInjective(a: nat, pa: seq<Bytes>, b: nat, pb: seq<Bytes>)
    requires Segments(pa) && Segments(pb)
    requires KeyParts(a, pa) == KeyParts(b, pb)
    ensures a == b && pa == pb
  {
    KeyPartsSplit(a, pa);
    KeyPartsSplit(b, pb);
    var pre := Split(JobsKey, Slash);
    var ta := [Decimal(a)] + pa;
    var tb := [Decimal(b)] + pb;
    assert ta == (pre + ta)[|pre|..];
    assert tb == (pre + tb)[|pre|..];
    assert ta == tb;
    assert Decimal(a) == ta[0] && Decimal(b) == tb[0];
    DecimalInjective(a, b);
    assert pa == ta[1..] && pb == tb[1..];
  }

  /** The length of the job list, which is the id the next job gets. */
  function NextId(s: Store): nat
  {
    if JobsKey in s && s[JobsKey].List? then |s[JobsKey].items| else 0
  }

  /** The commands of Start, in order: the arguments only when there are
      some, the environment only when there is some, then the start signal. */
  function StartCommands(id: nat, args: seq<Bytes>, env: seq<Bytes>): seq<Command>
    requires HasEquals(env)
  {
    ArgsCommands(id, args) + EnvCommands(id, env) + [RPush(StartKey, [Int(id)])]
  }

  function ArgsCommands(id: nat, args: seq<Bytes>): seq<Command>
  {
    if |args| > 0 then [RPush(KeyParts(id, [Ascii("args")]), Texts(args))] else []
  }

  function EnvCommands(id: nat, env: seq<Bytes>): seq<Command>
    requires HasEquals(env)
  {
    if |env| > 0 then [HMSet(KeyParts(id, [Ascii("env")]), Texts(EnvPairs(env)))] else []
  }

  /** No setup command looks like the start signal. */
  lemma SetupIsNotSignal(id: nat, args: seq<Bytes>, env: seq<Bytes>)
    requires HasEquals(env)
    ensures forall i :: 0 <= i < |ArgsCommands(id, args) + EnvCommands(id, env)| ==>
      (ArgsCommands(id, args) + EnvCommands(id, env))[i] != RPush(StartKey, [Int(id)])
  {
    if |args| > 0 {
      assert ArgsCommands(id, args)[0].values[0] == Text(args[0]);
    }
  }

  /** The start signal is pushed only once the arguments and the environment
      were written: if it reached the broker, so did every earlier command,
      and none of them failed. */
  lemma StartSignalComesLast(s: Store, failure: Option<Bytes>, id: nat, args: seq<Bytes>, env: seq<Bytes>)
    requires HasEquals(env)
    ensures var cmds := StartCommands(id, args, env);
      var o := RunScript(s, failure, cmds);
      RPush(StartKey, [Int(id)]) in o.delivered ==>
        o.delivered == cmds
  {
    var cmds := StartCommands(id, args, env);
    var o := RunScript(s, failure, cmds);
    var signal := RPush(StartKey, [Int(id)]);
    if signal in o.delivered {
      var k :| 0 <= k < |o.delivered| && o.delivered[k] == signal;
      assert cmds[k] == signal;
      SetupIsNotSignal(id, args, env);
      assert k == |cmds| - 1;
      assert o.delivered == cmds;
    }
  }

  /** What one Wait's status lookup finds: a status is there exactly when the
      status key holds a string. */
  predicate StatusSet(s: Store, id: nat)
  {
    KeyParts(id, [Ascii("status")]) in s && s[KeyParts(id, [Ascii("status")])].Str?
  }

  /** The status key holds something that is not a string. */
  predicate StatusUnreadable(s: Store, id: nat)
  {
    KeyParts(id, [Ascii("status")]) in s && !s[KeyParts(id, [Ascii("status")])].Str?
  }

  /** Once a status is set, it stays set, whatever runs after it. */
  lemma StatusStaysSet(s: Store, id: nat, cmds: seq<Command>)
    requires StatusSet(s, id)
    ensures StatusSet(Replay(s, cmds), id)
  {
    StringKeyPersistsAll(s, cmds, KeyParts(id, [Ascii("status")]));
  }

  /** One action of the watch loop. */
  datatype WatchAction = CloseStreamer | WriteMessage(msg: Utils.Message)

  /** popMessage: a popped payload decoded, or the pop's own error. */
  function PopMessage(popped: Result<Bytes, Error>): (r: Result<Utils.Message, Error>)
    ensures popped.Err? ==> r == Err(popped.error)
    ensures popped.Ok? && r.Ok? ==> FormatMessage(r.value.Id, r.value.Body) == popped.value
    ensures popped.Ok? ==> (r.Err? <==> Colon !in popped.value)
  {
    match popped
    case Err(e) => Err(e)
    case Ok(payload) => ParseMessage(payload)
  }

  /** The watch loop's actions on a run of popped messages: a terminator
      frame closes the streamer and is still written; the loop ends at the
      first error, which is a failed pop or a failed close (`closeErr` is
      what the streamer's Close returns). */
  datatype WatchRun = WatchRun(actions: seq<WatchAction>, err: Option<Error>)

  function Watched(msgs: seq<Result<Utils.Message, Error>>, closeErr: Option<Error>): WatchRun
    decreases |msgs|
  {
    if msgs == [] then WatchRun([], None)
    else if msgs[0].Err? then WatchRun([], Some(msgs[0].error))
    else
      var msg := msgs[0].value;
      if msg.Id == [LowerX] && closeErr.Some? then WatchRun([CloseStreamer], closeErr)
      else
        var rest := Watched(msgs[1..], closeErr);
        WatchRun((if msg.Id == [LowerX] then [CloseStreamer] else []) + [WriteMessage(msg)] + rest.actions, rest.err)
  }

  /** The messages before the first error. */
  function Leading(msgs: seq<Result<Utils.Message, Error>>): seq<Utils.Message>
    decreases |msgs|
  {
    if msgs == [] || msgs[0].Err? then [] else [msgs[0].value] + Leading(msgs[1..])
  }

  /** The messages written, in order. */
  function Written(actions: seq<WatchAction>): seq<Utils.Message>
    decreases |actions|
  {
    if actions == [] then []
    else (if actions[0].WriteMessage? then [actions[0].msg] else []) + Written(actions[1..])
  }

  lemma {:induction false} WrittenAppend(a: seq<WatchAction>, b: seq<WatchAction>)
    ensures Written(a + b) == Written(a) + Written(b)
    decreases |a|
  {
    if a == [] {
      assert a + b == b;
    } else {
      assert (a + b)[0] == a[0] && (a + b)[1..] == a[1..] + b;
      WrittenAppend(a[1..], b);
    }
  }

  /** With closes that succeed, watch writes every message it pops, in
      order, terminators included, and stops at the first failed pop with
      that pop's error. */
  lemma {:induction false} WatchWritesEveryMessage(msgs: seq<Result<Utils.Message, Error>>)
    ensures Written(Watched(msgs, None).actions) == Leading(msgs)
    ensures Watched(msgs, None).err.Some? <==> exists i :: 0 <= i < |msgs| && msgs[i].Err?
    decreases |msgs|
  {
    if msgs != [] && msgs[0].Ok? {
      var msg := msgs[0].value;
      var rest := Watched(msgs[1..], None);
      WatchWritesEveryMessage(msgs[1..]);
      var head := (if msg.Id == [LowerX] then [CloseStreamer] else []) + [WriteMessage(msg)];
      WrittenAppend(head, rest.actions);
      assert Written(head) == [msg] by {
        if msg.Id == [LowerX] {
          assert head[1..] == [WriteMessage(msg)];
          assert head[1..][1..] == [];
        } else {
          assert head[1..] == [];
        }
      }
      if exists i :: 0 <= i < |msgs| && msgs[i].Err? {
        var i :| 0 <= i < |msgs| && msgs[i].Err?;
        assert msgs[1..][i - 1].Err?;
      }
      if exists i :: 0 <= i < |msgs[1..]| && msgs[1..][i].Err? {
        var i :| 0 <= i < |msgs[1..]| && msgs[1..][i].Err?;
        assert msgs[i + 1].Err?;
      }
    }
  }

  /** A terminator frame first closes the streamer and is then written. */
  lemma TerminatorClosesThenWrites(msg: Utils.Message, rest: seq<Result<Utils.Message, Error>>)
    requires msg.Id == [LowerX]
    ensures Watched([Ok(msg)] + rest, None).actions[..2] == [CloseStreamer, WriteMessage(msg)]
  {
    assert ([Ok(msg)] + rest)[1..] == rest;
  }

  /** A close that fails ends watch right after the terminator's close,
      without writing it. */
  lemma FailedCloseStopsWatch(msg: Utils.Message, rest: seq<Result<Utils.Message, Error>>, e: Error)
    requires msg.Id == [LowerX]
    ensures Watched([Ok(msg)] + rest, Some(e)) == WatchRun([CloseStreamer], Some(e))
  {
  }

  /** One message written by the watch loop: the actions taken so far grow
      by what Watched does for that message, and the rest is Watched of the
      messages after it. */
  lemma WatchedStep(msgs: seq<Result<Utils.Message, Error>>, closeErr: Option<Error>, i: nat,
                    before: seq<WatchAction>, after: seq<WatchAction>)
    requires i < |msgs| && msgs[i].Ok?
    requires !(msgs[i].value.Id == [LowerX] && closeErr.Some?)
    requires after == (if msgs[i].value.Id == [LowerX] then before + [CloseStreamer] else before) + [WriteMessage(msgs[i].value)]
    ensures var rest := Watched(msgs[i..], closeErr);
      var next := Watched(msgs[i + 1..], closeErr);
      WatchRun(before + rest.actions, rest.err) == WatchRun(after + next.actions, next.err)
  {
    var msg := msgs[i].value;
    var tail := msgs[i..];
    assert tail[0] == msgs[i] && tail[1..] == msgs[i + 1..];
    var next := Watched(msgs[i + 1..], closeErr);
    var pre := (if msg.Id == [LowerX] then [CloseStreamer] else []) + [WriteMessage(msg)];
    assert Watched(tail, closeErr) == WatchRun(pre + next.actions, next.err);
    assert after == before + pre;
    assert before + (pre + next.actions) == after + next.actions;
  }

  class Job {
    const Id: nat
    const Name: Bytes
    const Args: seq<Bytes>
    var Env: seq<Bytes>
    const pool: Conn

    constructor (id: nat, name: Bytes, args: seq<Bytes>, pool: Conn)
      ensures Id == id && Name == name && Args == args && Env == [] && this.pool == pool
    {
      Id := id;
      Name := name;
      Args := args;
      Env := [];
      this.pool := pool;
    }

    /** writeArgs: one RPUSH of all the arguments, and nothing when there
        are none. */
    method WriteArgs() returns (err: Option<Error>)
      modifies pool
      ensures pool.failure == old(pool.failure)
      ensures var o := RunScript(old(pool.store), pool.failure, ArgsCommands(Id, Args));
        pool.store == o.store && pool.log == old(pool.log) + o.delivered && err == o.err
    {
      if |Args| > 0 {
        var values := AsInterfaceSlice(Args);
        var cmd := RPush(KeyParts(Id, [Ascii("args")]), values);
        assert [cmd][1..] == [];
        var r := pool.Do(cmd);
        if r.Err? {
          return Some(r.error);
        }
      }
      return None;
    }

    /** writeEnv: one HMSET of the split pairs, and nothing when the
        environment is empty. */
    method WriteEnv() returns (err: Option<Error>)
      requires HasEquals(Env)
      modifies pool
      ensures pool.failure == old(pool.failure)
      ensures var o := RunScript(old(pool.store), pool.failure, EnvCommands(Id, Env));
        pool.store == o.store && pool.log == old(pool.log) + o.delivered && err == o.err
    {
      if |Env| > 0 {
        var pairs := SplitEnv(Env);
        var values := AsInterfaceSlice(pairs);
        var cmd := HMSet(KeyParts(Id, [Ascii("env")]), values);
        assert [cmd][1..] == [];
        var r := pool.Do(cmd);
        if r.Err? {
          return Some(r.error);
        }
      }
      return None;
    }

    /** The setup half of Start: arguments, then environment. */
    method Setup() returns (err: Option<Error>)
      requires HasEquals(Env)
      modifies pool
      ensures pool.failure == old(pool.failure)
      ensures var o := RunScript(old(pool.store), pool.failure, ArgsCommands(Id, Args) + EnvCommands(Id, Env));
        pool.store == o.store && pool.log == old(pool.log) + o.delivered && err == o.err
    {
      RunScriptAppend(pool.store, pool.failure, ArgsCommands(Id, Args), EnvCommands(Id, Env));
      err := WriteArgs();
      if err.Some? {
        return;
      }
      err := WriteEnv();
    }

    /** Start: arguments, environment, then the start signal, each step
        only after the one before it succeeded (the watch goroutine it
        launches is Watch). */
    method Start() returns (err: Option<Error>)
      requires HasEquals(Env)
      modifies pool
      ensures pool.failure == old(pool.failure)
      ensures var o := RunScript(old(pool.store), pool.failure, StartCommands(Id, Args, Env));
        pool.store == o.store && pool.log == old(pool.log) + o.delivered && err == o.err
    {
      var signal := RPush(StartKey, [Int(Id)]);
      ghost var setup := ArgsCommands(Id, Args) + EnvCommands(Id, Env);
      assert StartCommands(Id, Args, Env) == setup + [signal];
      err := Setup();
      if err.Some? {
        RunScriptAppend(old(pool.store), pool.failure, setup, [signal]);
        return;
      }
      ScriptThenCommand(old(pool.store), pool.failure, setup, signal, old(pool.log));
      var r := pool.Do(signal);
      if r.Err? {
        return Some(r.error);
      }
      err := None;
    }

    /** isComplete: a status is there when the status key holds a string,
        whatever its value; a failed lookup is wrapped in "Error getting job
        status". */
    method IsComplete() returns (complete: bool, err: Option<Error>)
      modifies pool
      ensures pool.failure == old(pool.failure) && pool.store == old(pool.store)
      ensures old(pool.failure).Some? ==>
        !complete && err == Some(StatusLookup(Transport(old(pool.failure).value))) && pool.log == old(pool.log)
      ensures old(pool.failure).None? ==>
        && pool.log == old(pool.log) + [Get(KeyParts(Id, [Ascii("status")]))]
        && complete == StatusSet(old(pool.store), Id)
        && err == (if StatusUnreadable(old(pool.store), Id) then Some(StatusLookup(WrongType)) else None)
    {
      var status := pool.Do(Get(KeyParts(Id, [Ascii("status")])));
      if status.Err? {
        return false, Some(StatusLookup(status.error));
      }
      if status.value != Bulk(None) {
        return true, None;
      }
      return false, None;
    }

    /** Wait: returns at once when a status is set; otherwise dequeues from
        the wait list, which the precondition requires to hold an item (the
        dequeued value is ignored). */
    method Wait() returns (err: Option<Error>)
      requires pool.failure.None? && KeyParts(Id, [Ascii("status")]) !in pool.store ==>
        !Blocks(pool.store, BLPop(KeyParts(Id, [Ascii("wait")])))
      modifies pool
      ensures pool.failure == old(pool.failure)
      ensures old(pool.failure).Some? ==>
        err == Some(StatusLookup(Transport(old(pool.failure).value))) && pool.log == old(pool.log) && pool.store == old(pool.store)
      ensures old(pool.failure).None? && KeyParts(Id, [Ascii("status")]) in old(pool.store) ==>
        && pool.store == old(pool.store)
        && pool.log == old(pool.log) + [Get(KeyParts(Id, [Ascii("status")]))]
        && err == (if StatusSet(old(pool.store), Id) then None else Some(StatusLookup(WrongType)))
      ensures old(pool.failure).None? && KeyParts(Id, [Ascii("status")]) !in old(pool.store) ==>
        var popped := Exec(old(pool.store), BLPop(KeyParts(Id, [Ascii("wait")])));
        && pool.store == popped.0
        && pool.log == old(pool.log) + [Get(KeyParts(Id, [Ascii("status")])), BLPop(KeyParts(Id, [Ascii("wait")]))]
        && err == (if popped.1.Err? then Some(popped.1.error) else None)
    {
      var complete, e := IsComplete();
      if e.Some? {
        return e;
      }
      if complete {
        return None;
      }
      var r := pool.Do(BLPop(KeyParts(Id, [Ascii("wait")])));
      if r.Err? {
        return Some(r.error);
      }
      return None;
    }

    /** watch over the messages its pops yield, in order: it stops at the
        first error. */
    method Watch(msgs: seq<Result<Utils.Message, Error>>, closeErr: Option<Error>) returns (actions: seq<WatchAction>, err: Option<Error>)
      ensures WatchRun(actions, err) == Watched(msgs, closeErr)
    {
      actions := [];
      var i := 0;
      while i < |msgs|
        invariant 0 <= i <= |msgs|
        invariant var rest := Watched(msgs[i..], closeErr);
          Watched(msgs, closeErr) == WatchRun(actions + rest.actions, rest.err)
      {
        ghost var before := actions;
        if msgs[i].Err? {
          assert msgs[i..][0] == msgs[i];
          assert before + [] == before;
          return actions, Some(msgs[i].error);
        }
        var msg := msgs[i].value;
        if msg.Id == [LowerX] {
          actions := actions + [CloseStreamer];
          if closeErr.Some? {
            assert msgs[i..][0] == msgs[i];
            return actions, closeErr;
          }
        }
        actions := actions + [WriteMessage(msg)];
        WatchedStep(msgs, closeErr, i, before, actions);
        i := i + 1;
      }
      err := None;
    }
  }

  /** NewJob: with no pool, fail before any command; otherwise push the name
      on the job list, and the job's id is its index there (the reply is the
      new length). */
  method NewJob(pool: Conn?, jobName: Bytes, args: seq<Bytes>) returns (job: Job?, err: Option<Error>)
    modifies pool
    ensures pool == null ==> job == null && err == Some(NilConnectionPool)
    ensures pool != null ==>
      var o := RunScript(old(pool.store), pool.failure, [RPush(JobsKey, [Text(jobName)])]);
      && pool.failure == old(pool.failure)
      && pool.store == o.store && pool.log == old(pool.log) + o.delivered && err == o.err
      && (job == null <==> err.Some?)
    ensures job != null ==>
      && fresh(job) && job.pool == pool && job.Name == jobName && job.Args == args && job.Env == []
      && job.Id == NextId(old(pool.store))
      && Exec(pool.store, LIndex(JobsKey, Int(job.Id))).1 == Ok(Bulk(Some(jobName)))
  {
    if pool == null {
      return null, Some(NilConnectionPool);
    }
    var cmd := RPush(JobsKey, [Text(jobName)]);
    assert [cmd][1..] == [];
    var r := pool.Do(cmd);
    if r.Err? {
      return null, Some(r.error);
    }
    var id := r.value.n - 1;
    job := new Job(id, jobName, args, pool);
    err := None;
  }
}
