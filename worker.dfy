/** worker.go: the worker side of a job. `Work` claims started jobs with a
    SETNX; `StartJob` reads a claimed job's name, arguments and environment,
    runs its handler and publishes the status (SET, then RPUSH). */
module Workers {

  import opened Wrappers
  import opened Bytes
  import opened Errors
  import opened Broker
  import opened Utils
  import opened Paths

  /** A job handler, on the name, arguments and environment it is called
      with (the streams and database a handler also receives are not part of
      this model). */
  type JobHandler = (Bytes, seq<Bytes>, map<Bytes, Bytes>) -> Option<Error>

  /** The environment loop's fold of a flat `[k1, v1, k2, v2, ...]` reply
      into `m`: pairs taken left to right, each key set to its value, so a
      later key overwrites an earlier one. */
  function FoldPairs(m: map<Bytes, Bytes>, flat: seq<Bytes>): map<Bytes, Bytes>
    requires |flat| % 2 == 0
    decreases |flat|
  {
    if flat == [] then m else FoldPairs(m[flat[0] := flat[1]], flat[2..])
  }

  /** A key that no pair names keeps what it had in `m`, and stays absent if
      it was absent. */
  lemma {:induction false} FoldPairsUntouched(m: map<Bytes, Bytes>, flat: seq<Bytes>, k: Bytes)
    requires |flat| % 2 == 0
    requires forall j :: 0 <= j < |flat| && j % 2 == 0 ==> flat[j] != k
    ensures k in FoldPairs(m, flat) <==> k in m
    ensures k in m ==> FoldPairs(m, flat)[k] == m[k]
    decreases |flat|
  {
    if flat != [] {
      assert flat[0] != k;
      assert forall j :: 0 <= j < |flat| - 2 && j % 2 == 0 ==> flat[2..][j] == flat[j + 2];
      FoldPairsUntouched(m[flat[0] := flat[1]], flat[2..], k);
    }
  }

  /** A named key ends up with the value of its last pair. */
  lemma {:induction false} FoldPairsLastWins(m: map<Bytes, Bytes>, flat: seq<Bytes>, i: nat)
    requires |flat| % 2 == 0 && i % 2 == 0 && i < |flat|
    requires forall j :: i < j < |flat| && j % 2 == 0 ==> flat[j] != flat[i]
    ensures flat[i] in FoldPairs(m, flat) && FoldPairs(m, flat)[flat[i]] == flat[i + 1]
    decreases |flat|
  {
    assert forall j :: 0 <= j < |flat| - 2 ==> flat[2..][j] == flat[j + 2];
    if i == 0 {
      FoldPairsUntouched(m[flat[0] := flat[1]], flat[2..], flat[0]);
    } else {
      FoldPairsLastWins(m[flat[0] := flat[1]], flat[2..], i - 2);
    }
  }

  /** The status a job publishes: empty on success, the error's text
      otherwise. */
  function StatusText(result: Option<Error>): Bytes
  {
    match result
    case None => []
    case Some(e) => Errors.Message(e)
  }

  /** An error whose text is empty publishes the same status as success. */
  lemma EmptyErrorLooksLikeSuccess()
    ensures StatusText(Some(Handler([]))) == StatusText(None)
    ensures StatusText(Some(NoSuchJob([]))) != StatusText(None)
  {
    assert |StatusText(Some(NoSuchJob([])))| > 0;
  }

  /** What a started job is called with. */
  datatype JobRequest = JobRequest(name: Bytes, args: seq<Bytes>, env: map<Bytes, Bytes>)

  /** What the three reads of a claimed job yield, on a broker in state `s`
      (the reads change nothing), and how many of them were issued before
      the first error. */
  datatype JobRead = JobRead(request: Result<JobRequest, Error>, issued: nat)

  /** One action of the worker's read loop on a popped frame. */
  datatype LoopAction = CloseAll | CloseStream(name: Bytes) | Forward(msg: Utils.Message)

  /** The read loop's dispatch as written: `msg.Id[0]` panics on an empty id,
      so that is outside its domain. */
  function DispatchAsWritten(msg: Utils.Message): (r: seq<LoopAction>)
    requires |msg.Id| > 0
    ensures CloseAll in r <==> msg.Id == [LowerX]
    ensures CloseStream(msg.Id[1..]) in r <==> msg.Id[0] == Dash
    ensures Forward(msg) in r <==> msg.Body != []
  {
    (if msg.Id == [LowerX] then [CloseAll] else [])
    + (if msg.Id[0] == Dash then [CloseStream(msg.Id[1..])] else [])
    + (if |msg.Body| > 0 then [Forward(msg)] else [])
  }

  /** ...and yet a frame with an empty name decodes: ":a" has id "" and body
      "a", so the loop panics on a frame the decoder accepts. */
  lemma EmptyIdDecodes()
    ensures ParseMessage([Colon, 97]).Ok?
    ensures ParseMessage([Colon, 97]).value.Id == []
  {
    assert IndexOf([Colon, 97], Colon) == Some(0);
  }

  /** The dispatch as intended: an empty id is not a close request. */
  function Dispatch(msg: Utils.Message): (r: seq<LoopAction>)
    ensures |msg.Id| > 0 ==> r == DispatchAsWritten(msg)
    ensures CloseAll in r <==> msg.Id == [LowerX]
    ensures |msg.Id| > 0 ==> (CloseStream(msg.Id[1..]) in r <==> msg.Id[0] == Dash)
    ensures forall i :: 0 <= i < |r| && r[i].CloseStream? ==> |msg.Id| > 0 && msg.Id[0] == Dash && r[i].name == msg.Id[1..]
    ensures Forward(msg) in r <==> msg.Body != []
    ensures forall i :: 0 <= i < |r| && r[i].Forward? ==> r[i].msg == msg
  {
    (if msg.Id == [LowerX] then [CloseAll] else [])
    + (if |msg.Id| > 0 && msg.Id[0] == Dash then [CloseStream(msg.Id[1..])] else [])
    + (if |msg.Body| > 0 then [Forward(msg)] else [])
  }

  class Worker {
    const pool: Conn
    const Prefix: Bytes
    var handlers: map<Bytes, JobHandler>

    /** NewWorker, on a connection (the pool's construction over a transport
        is not part of this model). */
    constructor NewWorker(pool: Conn, prefix: Bytes)
      ensures this.pool == pool && Prefix == prefix && handlers == map[]
    {
      this.pool := pool;
      Prefix := prefix;
      handlers := map[];
    }

    /** KeyPath: the prefix and the parts, joined as paths. */
    function KeyPath(parts: seq<Bytes>): (key: Bytes)
      ensures Prefix != [] ==> |key| > 0
    {
      Join([Prefix] + parts)
    }

    /** A key built from segments names them: splitting it at '/' gives the
        prefix's own pieces, then the parts. */
    lemma KeyPathSplits(parts: seq<Bytes>)
      requires Prefix != [] && Segments(parts)
      ensures Split(KeyPath(parts), Slash) == Split(Prefix, Slash) + parts
    {
      SplitJoin(Prefix, parts);
    }

    /** Hence distinct segment lists give distinct keys. */
    lemma KeyPathInjective(a: seq<Bytes>, b: seq<Bytes>)
      requires Prefix != [] && Segments(a) && Segments(b)
      requires KeyPath(a) == KeyPath(b)
      ensures a == b
    {
      KeyPathSplits(a);
      KeyPathSplits(b);
      var n := |Split(Prefix, Slash)|;
      assert a == (Split(Prefix, Slash) + a)[n..];
      assert b == (Split(Prefix, Slash) + b)[n..];
    }

    /** RegisterJob: `name` now runs `h`; every other name keeps its handler. */
    method RegisterJob(name: Bytes, h: JobHandler)
      modifies this`handlers
      ensures handlers == old(handlers)[name := h]
      ensures name in handlers && handlers[name] == h
      ensures forall n :: n != name ==> (n in handlers <==> n in old(handlers))
      ensures forall n :: n != name && n in handlers ==> handlers[n] == old(handlers)[n]
    {
      handlers := handlers[name := h];
    }

    /** ServeJob: the registered handler's result, or "No such job: name"
        without calling any handler. */
    function ServeJob(name: Bytes, args: seq<Bytes>, env: map<Bytes, Bytes>): (err: Option<Error>)
      reads this
      ensures name !in handlers ==> err == Some(NoSuchJob(name))
      ensures name !in handlers ==> Errors.Message(err.value) == Ascii("No such job: ") + name
      ensures name in handlers ==> err == handlers[name](name, args, env)
    {
      if name !in handlers then Some(NoSuchJob(name)) else handlers[name](name, args, env)
    }

    /** The reads of a claimed job, as the broker answers them: the name at
        index `id` of the job list (nil is an error), the whole argument
        list, and the environment hash folded into a map (a flat reply of odd
        length is an error). */
    function ReadJob(s: Store, id: Bytes): (r: JobRead)
      ensures r.issued in {1, 2, 3}
      ensures r.request.Ok? ==> r.issued == 3
      ensures var name := Exec(s, LIndex(KeyPath([]), Text(id))).1;
        r.issued == 1 <==> !(name.Ok? && name.value.Bulk? && name.value.value.Some?)
      ensures r.request.Ok? ==>
        && Exec(s, LIndex(KeyPath([]), Text(id))).1 == Ok(Bulk(Some(r.request.value.name)))
        && Exec(s, LRangeAll(KeyPath([id, Ascii("args")]))).1 == Ok(Multi(r.request.value.args))
      ensures var env := Exec(s, HGetAll(KeyPath([id, Ascii("env")]))).1;
        r.request.Ok? ==>
          && env.Ok? && env.value.Multi? && |env.value.values| % 2 == 0
          && r.request.value.env == FoldPairs(map[], env.value.values)
      ensures var name := Exec(s, LIndex(KeyPath([]), Text(id))).1;
        var args := Exec(s, LRangeAll(KeyPath([id, Ascii("args")]))).1;
        var env := Exec(s, HGetAll(KeyPath([id, Ascii("env")]))).1;
        && name.Ok? && name.value.Bulk? && name.value.value.Some?
        && args.Ok? && args.value.Multi?
        && env.Ok? && env.value.Multi? && |env.value.values| % 2 == 0
        ==> r.request.Ok?
    {
      var name := Exec(s, LIndex(KeyPath([]), Text(id))).1;
      if name.Err? then JobRead(Err(name.error), 1)
      else if name.value.Bulk? && name.value.value.Some? then
        var args := Exec(s, LRangeAll(KeyPath([id, Ascii("args")]))).1;
        if args.Err? then JobRead(Err(args.error), 2)
        else if !args.value.Multi? then JobRead(Err(InvalidResponseType), 2)
        else
          var env := Exec(s, HGetAll(KeyPath([id, Ascii("env")]))).1;
          if env.Err? then JobRead(Err(env.error), 3)
          else if !env.value.Multi? then JobRead(Err(InvalidResponseType), 3)
          else if |env.value.values| % 2 == 1 then JobRead(Err(ShortArray), 3)
          else JobRead(Ok(JobRequest(name.value.value.value, args.value.values, FoldPairs(map[], env.value.values))), 3)
      else JobRead(Err(NilReply), 1)
    }

    /** The three reads, in order. */
    function ReadCommands(id: Bytes): seq<Command>
    {
      [LIndex(KeyPath([]), Text(id)), LRangeAll(KeyPath([id, Ascii("args")])), HGetAll(KeyPath([id, Ascii("env")]))]
    }

    /** The status publication: SET the status key, then RPUSH the status to
        the wait key. */
    function PublishCommands(id: Bytes, status: Bytes): seq<Command>
    {
      [Set(KeyPath([id, Ascii("status")]), Text(status)), RPush(KeyPath([id, Ascii("wait")]), [Text(status)])]
    }

    /** The argument loop: one string per element of the LRANGE reply, in
        order. */
    method DecodeArgs(values: seq<Bytes>) returns (args: seq<Bytes>)
      ensures |args| == |values|
      ensures forall i :: 0 <= i < |values| ==> args[i] == values[i]
    {
      var a := new Bytes[|values|];
      var i := 0;
      while i < |values|
        invariant 0 <= i <= |values|
        invariant forall k :: 0 <= k < i ==> a[k] == values[k]
      {
        a[i] := values[i];
        i := i + 1;
      }
      args := a[..];
    }

    /** The environment loop: scan one key and one value at a time; a lone
        trailing key makes the scan fail. */
    method DecodeEnv(flat: seq<Bytes>) returns (env: map<Bytes, Bytes>, err: Option<Error>)
      ensures |flat| % 2 == 1 <==> err == Some(ShortArray)
      ensures |flat| % 2 == 0 ==> err == None && env == FoldPairs(map[], flat)
    {
      var rest := flat;
      env := map[];
      while |rest| > 0
        invariant |rest| % 2 == |flat| % 2
        invariant |flat| % 2 == 0 ==> FoldPairs(env, rest) == FoldPairs(map[], flat)
      {
        if |rest| < 2 {
          return env, Some(ShortArray);
        }
        env := env[rest[0] := rest[1]];
        rest := rest[2..];
      }
      err := None;
    }

    /** The claim loop. Each turn pops a started id from the start list and
        claims it with SETNX on KeyPath(id); only a won claim spawns the job
        (the spawned job itself is StartJob). It returns the first error;
        without one it stops where its BLPOP would wait, on an empty start
        list. `spawned` lists the ids it won, in order. */
    method Work() returns (err: Option<Error>, spawned: seq<Bytes>)
      modifies pool
      ensures pool.failure == old(pool.failure)
      ensures |pool.log| >= |old(pool.log)| && pool.log[..|old(pool.log)|] == old(pool.log)
      ensures pool.store == Replay(old(pool.store), pool.log[|old(pool.log)|..])
      ensures Won(old(pool.store), pool.log[|old(pool.log)|..]) == ClaimKeys(spawned)
      ensures ClaimTurns(pool.log[|old(pool.log)|..], KeyPath([Ascii("start")]))
      ensures err.None? ==> pool.failure.None? && Blocks(pool.store, BLPop(KeyPath([Ascii("start")])))
      ensures old(pool.failure).Some? ==> err == Some(Transport(old(pool.failure).value)) && pool.log == old(pool.log)
    {
      var start := KeyPath([Ascii("start")]);
      ghost var s0 := pool.store;
      ghost var n0 := |pool.log|;
      spawned := [];
      while pool.failure.Some? || !Blocks(pool.store, BLPop(start))
        invariant pool.failure == old(pool.failure)
        invariant old(pool.failure).Some? ==> pool.log == old(pool.log)
        invariant ClaimProgress(s0, old(pool.log), pool.log, pool.store, spawned, start)
        decreases Pending(pool.store, start)
      {
        ghost var log1 := pool.log;
        ghost var s1 := pool.store;
        var e, id, won, turn := ClaimNext(start);
        ClaimStep(s0, old(pool.log), log1, s1, pool.store, turn, spawned, id, won, start);
        if e.Some? {
          return e, spawned;
        }
        if won {
          spawned := spawned + [id];
        }
      }
      err := None;
    }

    /** One turn of the claim loop: BLPOP the start list, then SETNX the
        claim key of the popped id. An error can only come from the pop, and
        then the store is as it was. */
    method ClaimNext(start: Bytes) returns (err: Option<Error>, id: Bytes, won: bool, ghost turn: seq<Command>)
      requires pool.failure.Some? || !Blocks(pool.store, BLPop(start))
      modifies pool
      ensures pool.failure == old(pool.failure)
      ensures pool.log == old(pool.log) + turn
      ensures pool.store == Replay(old(pool.store), turn)
      ensures Won(old(pool.store), turn) == (if won then [KeyPath([id])] else [])
      ensures ClaimTurns(turn, start)
      ensures err.Some? ==> !won && pool.store == old(pool.store)
      ensures old(pool.failure).Some? ==> err == Some(Transport(old(pool.failure).value)) && turn == []
      ensures err.None? ==> Pending(pool.store, start) < Pending(old(pool.store), start)
    {
      var s1 := pool.store;
      var popped := pool.Do(BLPop(start));
      if popped.Err? {
        turn := if pool.failure.Some? then [] else [BLPop(start)];
        ReplayOne(s1, BLPop(start));
        return Some(popped.error), [], false, turn;
      }
      id := popped.value.value.value;
      var s2 := pool.store;
      var key := KeyPath([id]);
      var acquired := pool.Do(SetNX(key, Text(Ascii("me"))));
      won := acquired == Ok(Integer(1));
      turn := [BLPop(start), SetNX(key, Text(Ascii("me")))];
      ReplayTwo(s1, turn[0], turn[1]);
      PendingDrops(s1, start, key);
      err := None;
    }

    /** The keys claimed for a list of ids. */
    function ClaimKeys(ids: seq<Bytes>): (keys: seq<Bytes>)
      ensures |keys| == |ids| && forall i :: 0 <= i < |ids| ==> keys[i] == KeyPath([ids[i]])
    {
      seq(|ids|, i requires 0 <= i < |ids| => KeyPath([ids[i]]))
    }

    lemma ClaimKeysAppend(ids: seq<Bytes>, id: Bytes)
      ensures ClaimKeys(ids + [id]) == ClaimKeys(ids) + [KeyPath([id])]
    {
    }

    /** What the claim loop keeps: the log grows from `log0`, the store is the
        replay of what it added, the claims won are those of `spawned`, and
        the additions are claim turns. */
    ghost predicate ClaimProgress(s0: Store, log0: seq<Command>, log: seq<Command>, store: Store, spawned: seq<Bytes>, start: Bytes)
    {
      |log| >= |log0| && log[..|log0|] == log0
      && store == Replay(s0, log[|log0|..])
      && Won(s0, log[|log0|..]) == ClaimKeys(spawned)
      && ClaimTurns(log[|log0|..], start)
    }

    /** A log that starts with `log0` still does after `more`, and what it
        adds to `log0` grows by `more`. */
    lemma PrefixExtends(log0: seq<Command>, log: seq<Command>, more: seq<Command>)
      requires |log| >= |log0| && log[..|log0|] == log0
      ensures (log + more)[..|log0|] == log0
      ensures (log + more)[|log0|..] == log[|log0|..] + more
    {
    }

    /** One claim turn keeps the loop's progress, whether or not it wins. */
    lemma ClaimStep(s0: Store, log0: seq<Command>, log: seq<Command>, s1: Store, s2: Store,
                    turn: seq<Command>, spawned: seq<Bytes>, id: Bytes, won: bool, start: Bytes)
      requires ClaimProgress(s0, log0, log, s1, spawned, start)
      requires s2 == Replay(s1, turn)
      requires Won(s1, turn) == (if won then [KeyPath([id])] else [])
      requires ClaimTurns(turn, start)
      ensures ClaimProgress(s0, log0, log + turn, s2, if won then spawned + [id] else spawned, start)
    {
      var done := log[|log0|..];
      var log2 := log + turn;
      var spawned2 := if won then spawned + [id] else spawned;
      PrefixExtends(log0, log, turn);
      ReplayWonAppend(s0, done, turn);
      assert Won(s0, done + turn) == ClaimKeys(spawned) + Won(s1, turn);
      ClaimKeysAppend(spawned, id);
      assert ClaimKeys(spawned) + Won(s1, turn) == ClaimKeys(spawned2);
      ClaimTurnsAppend(done, turn, start);
    }

    /** The reads of a claimed job, one after another, stopping at the first
        error. */
    method LoadJob(id: Bytes) returns (job: Result<JobRequest, Error>)
      requires pool.failure.None?
      modifies pool
      ensures pool.failure == old(pool.failure) && pool.store == old(pool.store)
      ensures var r := ReadJob(old(pool.store), id);
        job == r.request && pool.log == old(pool.log) + ReadCommands(id)[..r.issued]
    {
      ghost var r := ReadJob(pool.store, id);
      ghost var cmds := ReadCommands(id);
      ReadKeepsStore(pool.store, cmds[0]);
      ReadKeepsStore(pool.store, cmds[1]);
      ReadKeepsStore(pool.store, cmds[2]);
      var name := pool.Do(LIndex(KeyPath([]), Text(id)));
      assert cmds[..1] == [cmds[0]];
      if name.Err? {
        return Err(name.error);
      }
      if !(name.value.Bulk? && name.value.value.Some?) {
        return Err(NilReply);
      }
      var argsVals := pool.Do(LRangeAll(KeyPath([id, Ascii("args")])));
      assert cmds[..2] == [cmds[0], cmds[1]];
      if argsVals.Err? {
        return Err(argsVals.error);
      }
      if !argsVals.value.Multi? {
        return Err(InvalidResponseType);
      }
      var args := DecodeArgs(argsVals.value.values);
      assert args == argsVals.value.values;
      var envVals := pool.Do(HGetAll(KeyPath([id, Ascii("env")])));
      assert cmds[..3] == cmds;
      if envVals.Err? {
        return Err(envVals.error);
      }
      if !envVals.value.Multi? {
        return Err(InvalidResponseType);
      }
      var env, envErr := DecodeEnv(envVals.value.values);
      if envErr.Some? {
        return Err(envErr.value);
      }
      job := Ok(JobRequest(name.value.value.value, args, env));
    }

    /** startJob, from the reads to the status publication (the read-loop
        goroutine it also starts is Dispatch). */
    method StartJob(id: Bytes) returns (err: Option<Error>)
      modifies pool
      ensures pool.failure == old(pool.failure)
      ensures old(pool.failure).Some? ==>
        err == Some(Transport(old(pool.failure).value)) && pool.store == old(pool.store) && pool.log == old(pool.log)
      ensures old(pool.failure).None? ==>
        var r := ReadJob(old(pool.store), id);
        match r.request
        case Err(e) =>
          err == Some(e) && pool.store == old(pool.store) && pool.log == old(pool.log) + ReadCommands(id)[..r.issued]
        case Ok(job) =>
          var o := RunScript(old(pool.store), None, PublishCommands(id, StatusText(ServeJob(job.name, job.args, job.env))));
          && pool.store == o.store && err == o.err
          && pool.log == old(pool.log) + ReadCommands(id) + o.delivered
    {
      if pool.failure.Some? {
        var r := pool.Do(LIndex(KeyPath([]), Text(id)));
        return Some(r.error);
      }
      var job := LoadJob(id);
      if job.Err? {
        return Some(job.error);
      }
      var result := ServeJob(job.value.name, job.value.args, job.value.env);
      err := PublishStatus(id, StatusText(result));
    }

    /** The status publication: the push waits for a successful SET. */
    method PublishStatus(id: Bytes, status: Bytes) returns (err: Option<Error>)
      modifies pool
      ensures pool.failure == old(pool.failure)
      ensures var o := RunScript(old(pool.store), pool.failure, PublishCommands(id, status));
        pool.store == o.store && pool.log == old(pool.log) + o.delivered && err == o.err
    {
      var cmds := PublishCommands(id, status);
      assert cmds[1..] == [cmds[1]] && cmds[1..][1..] == [];
      var r := pool.Do(cmds[0]);
      if r.Err? {
        return Some(r.error);
      }
      assert RunScript(old(pool.store), pool.failure, cmds)
          == var rest := RunScript(pool.store, pool.failure, [cmds[1]]);
             Outcome(rest.store, [cmds[0]] + rest.delivered, rest.err);
      ghost var s2 := pool.store;
      r := pool.Do(cmds[1]);
      if r.Err? {
        return Some(r.error);
      }
      assert RunScript(s2, pool.failure, [cmds[1]]) == Outcome(pool.store, [cmds[1]], None);
      return None;
    }

    /** The read loop over the frames it pops, each decoded message turned
        into its actions in order (a failed pop panics, so every pop here
        yields a message). */
    method ReadLoop(msgs: seq<Utils.Message>) returns (actions: seq<LoopAction>)
      ensures actions == DispatchAll(msgs)
    {
      actions := [];
      var i := 0;
      while i < |msgs|
        invariant 0 <= i <= |msgs|
        invariant actions + DispatchAll(msgs[i..]) == DispatchAll(msgs)
      {
        assert msgs[i..][1..] == msgs[i + 1..];
        actions := actions + Dispatch(msgs[i]);
        i := i + 1;
      }
    }
  }

  /** How the store's start list shrinks as the claim loop runs. */
  function Pending(s: Store, key: Bytes): nat
  {
    if key !in s then 0 else if s[key].List? then 2 * |s[key].items| else 1
  }

  /** The actions of a run of messages. */
  function DispatchAll(msgs: seq<Utils.Message>): seq<LoopAction>
  {
    if msgs == [] then [] else Dispatch(msgs[0]) + DispatchAll(msgs[1..])
  }

  /** Every command of the claim loop is its BLPOP or a claim. */
  predicate ClaimTurns(cmds: seq<Command>, start: Bytes)
  {
    forall i :: 0 <= i < |cmds| ==> cmds[i] == BLPop(start) || (cmds[i].SetNX? && cmds[i].value == Text(Ascii("me")))
  }

  lemma ClaimTurnsAppend(a: seq<Command>, b: seq<Command>, start: Bytes)
    requires ClaimTurns(a, start) && ClaimTurns(b, start)
    ensures ClaimTurns(a + b, start)
  {
    assert forall i :: |a| <= i < |a + b| ==> (a + b)[i] == b[i - |a|];
  }

  lemma ReplayOne(s: Store, c: Command)
    ensures Replay(s, []) == s && Won(s, []) == []
    ensures Replay(s, [c]) == Exec(s, c).0
    ensures Won(s, [c]) == (if c.SetNX? && Exec(s, c).1 == Ok(Integer(1)) then [c.key] else [])
  {
    assert [c][1..] == [];
    ClaimsMeansReplyOne(s, c);
  }

  lemma ReplayTwo(s: Store, a: Command, b: Command)
    ensures Replay(s, [a, b]) == Exec(Exec(s, a).0, b).0
    ensures Won(s, [a, b]) ==
      (if a.SetNX? && Exec(s, a).1 == Ok(Integer(1)) then [a.key] else [])
      + (if b.SetNX? && Exec(Exec(s, a).0, b).1 == Ok(Integer(1)) then [b.key] else [])
  {
    assert [a, b][1..] == [b];
    ClaimsMeansReplyOne(s, a);
    ReplayOne(Exec(s, a).0, b);
  }

  /** A pop from a non-empty start list followed by any claim shrinks what
      is pending there, whatever key the claim names. */
  lemma PendingDrops(s: Store, start: Bytes, key: Bytes)
    requires !Blocks(s, BLPop(start)) && Exec(s, BLPop(start)).1.Ok?
    ensures var s2 := Exec(Exec(s, BLPop(start)).0, SetNX(key, Text(Ascii("me")))).0;
      Pending(s2, start) < Pending(s, start)
  {
  }
}
