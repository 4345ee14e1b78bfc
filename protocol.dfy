/** The two sides of a job against one broker: what the client writes
    (job.go) is what the worker reads back (worker.go), on the same keys. */
module Protocol {

  import opened Wrappers
  import opened Bytes
  import opened Broker
  import opened Utils
  import opened Paths
  import opened Workers
  import opened Jobs

  /** No field of the hash has name `k`. */
  predicate Unnamed(fields: seq<(Bytes, Bytes)>, k: Bytes)
  {
    forall i :: 0 <= i < |fields| ==> fields[i].0 != k
  }

  predicate DistinctNames(fields: seq<(Bytes, Bytes)>)
  {
    forall i, j :: 0 <= i < j < |fields| ==> fields[i].0 != fields[j].0
  }

  /** The fields of a hash, set into `m` in order. */
  function Into(m: map<Bytes, Bytes>, fields: seq<(Bytes, Bytes)>): map<Bytes, Bytes>
    decreases |fields|
  {
    if fields == [] then m else Into(m[fields[0].0 := fields[0].1], fields[1..])
  }

  /** Folding HGETALL's flat reply is setting the hash's fields in order. */
  lemma {:induction false} IntoIsFold(m: map<Bytes, Bytes>, fields: seq<(Bytes, Bytes)>)
    ensures Into(m, fields) == FoldPairs(m, FlattenFields(fields))
    decreases |fields|
  {
    if fields != [] {
      var flat := FlattenFields(fields);
      assert flat[0] == fields[0].0 && flat[1] == fields[0].1;
      assert flat[2..] == FlattenFields(fields[1..]);
      IntoIsFold(m[fields[0].0 := fields[0].1], fields[1..]);
    }
  }

  /** HSET adds no name but its own. */
  lemma {:induction false} HSetNames(fields: seq<(Bytes, Bytes)>, k: Bytes, v: Bytes, x: Bytes)
    requires Unnamed(fields, x) && x != k
    ensures Unnamed(HSet(fields, k, v), x)
    decreases |fields|
  {
    if fields != [] && fields[0].0 != k {
      assert forall i :: 0 <= i < |fields| - 1 ==> fields[1..][i] == fields[i + 1];
      HSetNames(fields[1..], k, v, x);
      assert forall i :: 0 < i < |HSet(fields, k, v)| ==> HSet(fields, k, v)[i] == HSet(fields[1..], k, v)[i - 1];
    }
  }

  /** HSET keeps field names distinct. */
  lemma {:induction false} HSetDistinct(fields: seq<(Bytes, Bytes)>, k: Bytes, v: Bytes)
    requires DistinctNames(fields)
    ensures DistinctNames(HSet(fields, k, v))
    decreases |fields|
  {
    if fields != [] && fields[0].0 != k {
      var rest := fields[1..];
      assert forall i :: 0 <= i < |rest| ==> rest[i] == fields[i + 1];
      HSetDistinct(rest, k, v);
      HSetNames(rest, k, v, fields[0].0);
      var h := HSet(fields, k, v);
      assert forall j :: 0 < j < |h| ==> h[j] == HSet(rest, k, v)[j - 1];
    }
  }

  /** Setting a key no field names commutes with setting the fields. */
  lemma {:induction false} IntoFrame(m: map<Bytes, Bytes>, fields: seq<(Bytes, Bytes)>, k: Bytes, a: Bytes)
    requires Unnamed(fields, k)
    ensures Into(m[k := a], fields) == Into(m, fields)[k := a]
    decreases |fields|
  {
    if fields != [] {
      var f := fields[0];
      assert m[k := a][f.0 := f.1] == m[f.0 := f.1][k := a];
      assert forall i :: 0 <= i < |fields| - 1 ==> fields[1..][i] == fields[i + 1];
      IntoFrame(m[f.0 := f.1], fields[1..], k, a);
    }
  }

  /** HSET of one field, seen through the folded map, is a map update. */
  lemma {:induction false} IntoHSet(m: map<Bytes, Bytes>, fields: seq<(Bytes, Bytes)>, k: Bytes, v: Bytes)
    requires DistinctNames(fields)
    ensures Into(m, HSet(fields, k, v)) == Into(m, fields)[k := v]
    decreases |fields|
  {
    if fields == [] {
      assert HSet(fields, k, v)[1..] == [];
    } else {
    var rest := fields[1..];
    assert forall i :: 0 <= i < |rest| ==> rest[i] == fields[i + 1];
    if fields[0].0 == k {
      assert HSet(fields, k, v)[1..] == rest;
      IntoFrame(m, rest, k, v);
      IntoFrame(m, rest, k, fields[0].1);
      assert m[k := fields[0].1][k := v] == m[k := v];
    } else {
      assert HSet(fields, k, v)[1..] == HSet(rest, k, v);
      IntoHSet(m[fields[0].0 := fields[0].1], rest, k, v);
    }
    }
  }

  /** HMSET's pairs, seen through the folded map, are the worker's own fold
      of those pairs on top of what the hash held. */
  lemma {:induction false} IntoHSetPairs(m: map<Bytes, Bytes>, fields: seq<(Bytes, Bytes)>, pairs: seq<Bytes>)
    requires DistinctNames(fields) && |pairs| % 2 == 0
    ensures Into(m, HSetPairs(fields, pairs)) == FoldPairs(Into(m, fields), pairs)
    decreases |pairs|
  {
    if |pairs| >= 2 {
      HSetDistinct(fields, pairs[0], pairs[1]);
      IntoHSetPairs(m, HSet(fields, pairs[0], pairs[1]), pairs[2..]);
      IntoHSet(m, fields, pairs[0], pairs[1]);
    }
  }

  lemma ArgsBytesTexts(values: seq<Bytes>)
    ensures ArgsBytes(Texts(values)) == values
  {
  }

  /** The worker with the client's prefix builds the client's keys: its
      KeyPath(id, parts...) is the job's keyParts(parts...), its start list
      is the client's, and its job list is the client's. */
  lemma {:induction false} KeysAgree(w: Worker, id: nat, parts: seq<Bytes>)
    requires w.Prefix == JobsKey
    ensures w.KeyPath([Decimal(id)] + parts) == KeyParts(id, parts)
    ensures w.KeyPath([]) == JobsKey
    ensures w.KeyPath([Ascii("start")]) == StartKey
  {
    KeyPartsRegroup(id, parts);
    assert [w.Prefix] + ([Decimal(id)] + parts) == [JobsKey, Decimal(id)] + parts;
    assert [w.Prefix] + [] == [JobsKey] && [JobsKey][..0] == [];
    JoinTwo(JobsKey, Ascii("start"));
    assert [w.Prefix] + [Ascii("start")] == [JobsKey, Ascii("start")];
    assert StartKey == JobsKey + [Slash] + Ascii("start");
  }

  /** The id NewJob returns finds the job's name where the worker looks it
      up: LINDEX on the job list with the id as its decimal text. */
  lemma NameRoundTrip(s: Store, name: Bytes)
    requires RunScript(s, None, [RPush(JobsKey, [Text(name)])]).err.None?
    ensures var s2 := RunScript(s, None, [RPush(JobsKey, [Text(name)])]).store;
      Exec(s2, LIndex(JobsKey, Text(Decimal(NextId(s))))).1 == Ok(Bulk(Some(name)))
  {
    ParseDecimalOfDecimal(NextId(s));
    assert [RPush(JobsKey, [Text(name)])][1..] == [];
  }

  /** The arguments Start writes to a fresh key are the worker's LRANGE
      reply, element for element. */
  lemma ArgsRoundTrip(s: Store, id: nat, args: seq<Bytes>)
    requires |args| > 0 && KeyParts(id, [Ascii("args")]) !in s
    ensures var s2 := Exec(s, ArgsCommands(id, args)[0]).0;
      Exec(s2, LRangeAll(KeyParts(id, [Ascii("args")]))).1 == Ok(Multi(args))
  {
    ArgsBytesTexts(args);
  }

  /** The environment Start writes to a fresh key decodes, on the worker's
      side, to the fold of splitEnv's pairs: each key maps to the value of
      its last entry. */
  lemma EnvRoundTrip(s: Store, id: nat, env: seq<Bytes>)
    requires HasEquals(env) && |env| > 0 && KeyParts(id, [Ascii("env")]) !in s
    ensures var s2 := Exec(s, EnvCommands(id, env)[0]).0;
      var reply := Exec(s2, HGetAll(KeyParts(id, [Ascii("env")]))).1;
      && reply.Ok? && reply.value.Multi? && |reply.value.values| % 2 == 0
      && FoldPairs(map[], reply.value.values) == FoldPairs(map[], EnvPairs(env))
  {
    var key := KeyParts(id, [Ascii("env")]);
    var pairs := EnvPairs(env);
    Double(|env|);
    ArgsBytesTexts(pairs);
    var fields := HSetPairs([], pairs);
    assert EnvCommands(id, env)[0] == HMSet(key, Texts(pairs));
    var s2 := s[key := Hash(fields)];
    assert Exec(s, EnvCommands(id, env)[0]).0 == s2;
    var flat := FlattenFields(fields);
    assert Exec(s2, HGetAll(key)).1 == Ok(Multi(flat));
    Double(|fields|);
    IntoHSetPairs(map[], [], pairs);
    IntoIsFold(map[], fields);
    assert Into(map[], []) == map[];
  }

  lemma Double(n: nat)
    ensures (2 * n) % 2 == 0
  {
  }

  lemma EnvPairsKeyAt(env: seq<Bytes>, j: nat)
    requires HasEquals(env) && j < 2 * |env| && j % 2 == 0
    ensures j / 2 < |env| && EnvPairs(env)[j] == EnvKey(env[j / 2])
  {
    var k := j / 2;
    assert j == 2 * k;
  }

  /** What the worker's env map holds for one entry of the client's
      environment: its value, unless a later entry has the same key. */
  lemma EnvEntrySeen(env: seq<Bytes>, i: nat)
    requires HasEquals(env) && i < |env|
    requires forall j :: i < j < |env| ==> EnvKey(env[j]) != EnvKey(env[i])
    ensures var m := FoldPairs(map[], EnvPairs(env));
      EnvKey(env[i]) in m && m[EnvKey(env[i])] == EnvValue(env[i])
  {
    LaterKeysDiffer(env, i);
    FoldSeenSlots(env, i);
  }

  /** FoldSeen at the slots of entry i. */
  lemma FoldSeenSlots(env: seq<Bytes>, i: nat)
    requires HasEquals(env) && i < |env| && LastKeyAt(EnvPairs(env), 2 * i)
    ensures var m := FoldPairs(map[], EnvPairs(env));
      EnvPairs(env)[2 * i] in m && m[EnvPairs(env)[2 * i]] == EnvPairs(env)[2 * i + 1]
  {
    FoldSeen(EnvPairs(env), 2 * i, EnvPairs(env)[2 * i], EnvPairs(env)[2 * i + 1]);
  }

  /** Slot k of a flat key/value list holds a key that no later key slot
      repeats. */
  predicate LastKeyAt(flat: seq<Bytes>, k: nat)
  {
    |flat| % 2 == 0 && k % 2 == 0 && k + 1 < |flat|
    && forall j :: k < j < |flat| && j % 2 == 0 ==> flat[j] != flat[k]
  }

  /** FoldPairsLastWins from an empty map, for a slot LastKeyAt names. */
  lemma FoldSeen(flat: seq<Bytes>, k: nat, key: Bytes, value: Bytes)
    requires LastKeyAt(flat, k) && flat[k] == key && flat[k + 1] == value
    ensures key in FoldPairs(map[], flat) && FoldPairs(map[], flat)[key] == value
  {
    FoldPairsLastWins(map[], flat, k);
  }

  lemma LaterKeysDiffer(env: seq<Bytes>, i: nat)
    requires HasEquals(env) && i < |env|
    requires forall j :: i < j < |env| ==> EnvKey(env[j]) != EnvKey(env[i])
    ensures LastKeyAt(EnvPairs(env), 2 * i)
    ensures EnvPairs(env)[2 * i] == EnvKey(env[i]) && EnvPairs(env)[2 * i + 1] == EnvValue(env[i])
  {
    var pairs := EnvPairs(env);
    forall j | 2 * i < j < |pairs| && j % 2 == 0
      ensures pairs[j] != pairs[2 * i]
    {
      EnvPairsKeyAt(env, j);
      assert i < j / 2;
    }
    Double(|env|);
    Double(i);
  }

  /** A job key of one part: `/jobs/<id>/<part>`. */
  lemma JobKeyOfOne(id: nat, part: Bytes)
    requires part != []
    ensures KeyParts(id, [part]) == Ascii("/jobs/") + Decimal(id) + [Slash] + part
  {
    assert [Ascii("/jobs/") + Decimal(id)] + [part] == [Ascii("/jobs/") + Decimal(id), part];
    JoinTwo(Ascii("/jobs/") + Decimal(id), part);
  }

  /** The keys Start writes are apart from each other and from the job list. */
  lemma StartKeysApart(id: nat)
    ensures var args := KeyParts(id, [Ascii("args")]);
      var env := KeyParts(id, [Ascii("env")]);
      && args != JobsKey && env != JobsKey && StartKey != JobsKey
      && args != StartKey && env != StartKey && args != env
  {
    var d := Decimal(id);
    JobKeyOfOne(id, Ascii("args"));
    JobKeyOfOne(id, Ascii("env"));
    var env := KeyParts(id, [Ascii("env")]);
    assert |d| >= 1;
    if |d| == 1 {
      assert env[7] == Slash;
      assert StartKey[7] != Slash;
    }
  }

  /** Every command of Start names one of its three keys. */
  lemma StartCommandKeys(id: nat, args: seq<Bytes>, env: seq<Bytes>)
    requires HasEquals(env)
    ensures var cmds := StartCommands(id, args, env);
      forall i :: 0 <= i < |cmds| ==>
        cmds[i].key in [KeyParts(id, [Ascii("args")]), KeyParts(id, [Ascii("env")]), StartKey]
  {
  }

  /** Start's run, as its argument commands, its environment commands, then
      the signal, each part from the store the one before leaves. */
  lemma StartInParts(s1: Store, id: nat, args: seq<Bytes>, env: seq<Bytes>)
    requires HasEquals(env) && RunScript(s1, None, StartCommands(id, args, env)).err.None?
    ensures var sa := RunScript(s1, None, ArgsCommands(id, args));
      var se := RunScript(sa.store, None, EnvCommands(id, env));
      && sa.err.None? && se.err.None?
      && RunScript(s1, None, StartCommands(id, args, env)).store
         == RunScript(se.store, None, [RPush(StartKey, [Int(id)])]).store
  {
    var ac := ArgsCommands(id, args);
    var ec := EnvCommands(id, env);
    var signal := RPush(StartKey, [Int(id)]);
    assert StartCommands(id, args, env) == ac + (ec + [signal]);
    RunScriptAppend(s1, None, ac, ec + [signal]);
    RunScriptAppend(RunScript(s1, None, ac).store, None, ec, [signal]);
  }

  /** Start leaves the job list as it was. */
  lemma StartKeepsJobList(s1: Store, id: nat, args: seq<Bytes>, env: seq<Bytes>, index: Arg)
    requires HasEquals(env)
    ensures var s2 := RunScript(s1, None, StartCommands(id, args, env)).store;
      Exec(s2, LIndex(JobsKey, index)).1 == Exec(s1, LIndex(JobsKey, index)).1
  {
    StartKeysApart(id);
    StartCommandKeys(id, args, env);
    ScriptKeepsRead(s1, None, StartCommands(id, args, env), LIndex(JobsKey, index));
  }

  /** A successful Start on a fresh argument key leaves there the arguments,
      element for element (none at all when there are none). */
  lemma StartWritesArgs(s1: Store, id: nat, args: seq<Bytes>, env: seq<Bytes>)
    requires HasEquals(env) && KeyParts(id, [Ascii("args")]) !in s1
    requires RunScript(s1, None, StartCommands(id, args, env)).err.None?
    ensures var s2 := RunScript(s1, None, StartCommands(id, args, env)).store;
      Exec(s2, LRangeAll(KeyParts(id, [Ascii("args")]))).1 == Ok(Multi(args))
  {
    var read := LRangeAll(KeyParts(id, [Ascii("args")]));
    var ac := ArgsCommands(id, args);
    StartInParts(s1, id, args, env);
    StartKeysApart(id);
    var sa := RunScript(s1, None, ac).store;
    var se := RunScript(sa, None, EnvCommands(id, env)).store;
    ScriptKeepsRead(sa, None, EnvCommands(id, env), read);
    ScriptKeepsRead(se, None, [RPush(StartKey, [Int(id)])], read);
    if |args| > 0 {
      RunScriptOne(s1, None, ac[0]);
      assert ac == [ac[0]];
      ArgsRoundTrip(s1, id, args);
    }
  }

  /** Start's environment part, run on a fresh key, leaves there a hash
      that folds to splitEnv's pairs (no hash at all for no entries). */
  lemma EnvPartWrites(sa: Store, id: nat, env: seq<Bytes>)
    requires HasEquals(env) && KeyParts(id, [Ascii("env")]) !in sa
    requires RunScript(sa, None, EnvCommands(id, env)).err.None?
    ensures var se := RunScript(sa, None, EnvCommands(id, env)).store;
      var reply := Exec(se, HGetAll(KeyParts(id, [Ascii("env")]))).1;
      && reply.Ok? && reply.value.Multi? && |reply.value.values| % 2 == 0
      && FoldPairs(map[], reply.value.values) == FoldPairs(map[], EnvPairs(env))
  {
    var ec := EnvCommands(id, env);
    if |env| > 0 {
      RunScriptOne(sa, None, ec[0]);
      assert ec == [ec[0]];
      EnvRoundTrip(sa, id, env);
    }
  }

  /** A successful Start on fresh argument and environment keys leaves in the
      environment hash what folds to splitEnv's pairs. */
  lemma StartWritesEnv(s1: Store, id: nat, args: seq<Bytes>, env: seq<Bytes>)
    requires HasEquals(env)
    requires KeyParts(id, [Ascii("args")]) !in s1 && KeyParts(id, [Ascii("env")]) !in s1
    requires RunScript(s1, None, StartCommands(id, args, env)).err.None?
    ensures var s2 := RunScript(s1, None, StartCommands(id, args, env)).store;
      var reply := Exec(s2, HGetAll(KeyParts(id, [Ascii("env")]))).1;
      && reply.Ok? && reply.value.Multi? && |reply.value.values| % 2 == 0
      && FoldPairs(map[], reply.value.values) == FoldPairs(map[], EnvPairs(env))
  {
    var read := HGetAll(KeyParts(id, [Ascii("env")]));
    StartInParts(s1, id, args, env);
    StartKeysApart(id);
    var sa := RunScript(s1, None, ArgsCommands(id, args)).store;
    var se := RunScript(sa, None, EnvCommands(id, env)).store;
    ScriptKeepsKey(s1, None, ArgsCommands(id, args), read.key);
    EnvPartWrites(sa, id, env);
    ScriptKeepsRead(se, None, [RPush(StartKey, [Int(id)])], read);
  }

  /** The worker's read, on a store whose three replies are those of a job
      written by the client under `id`. */
  lemma ReadFromReplies(w: Worker, t: Store, id: nat, name: Bytes, args: seq<Bytes>, values: seq<Bytes>)
    requires w.Prefix == JobsKey
    requires Exec(t, LIndex(JobsKey, Text(Decimal(id)))).1 == Ok(Bulk(Some(name)))
    requires Exec(t, LRangeAll(KeyParts(id, [Ascii("args")]))).1 == Ok(Multi(args))
    requires Exec(t, HGetAll(KeyParts(id, [Ascii("env")]))).1 == Ok(Multi(values)) && |values| % 2 == 0
    ensures w.ReadJob(t, Decimal(id)).request == Ok(JobRequest(name, args, FoldPairs(map[], values)))
  {
    KeysAgree(w, id, [Ascii("args")]);
    KeysAgree(w, id, [Ascii("env")]);
    assert [Decimal(id), Ascii("args")] == [Decimal(id)] + [Ascii("args")];
    assert [Decimal(id), Ascii("env")] == [Decimal(id)] + [Ascii("env")];
  }

  /** A job NewJob registered, whose arguments and environment Start then
      wrote to keys no earlier job left behind, is what the worker reads
      back: the name, the arguments element for element, and the
      environment as the fold of splitEnv's pairs. */
  lemma StartedJobReadsBack(w: Worker, s: Store, name: Bytes, args: seq<Bytes>, env: seq<Bytes>)
    requires w.Prefix == JobsKey && HasEquals(env)
    requires KeyParts(NextId(s), [Ascii("args")]) !in s && KeyParts(NextId(s), [Ascii("env")]) !in s
    requires RunScript(s, None, [RPush(JobsKey, [Text(name)])]).err.None?
    requires var s1 := RunScript(s, None, [RPush(JobsKey, [Text(name)])]).store;
      RunScript(s1, None, StartCommands(NextId(s), args, env)).err.None?
    ensures var s1 := RunScript(s, None, [RPush(JobsKey, [Text(name)])]).store;
      var s2 := RunScript(s1, None, StartCommands(NextId(s), args, env)).store;
      w.ReadJob(s2, Decimal(NextId(s))).request == Ok(JobRequest(name, args, FoldPairs(map[], EnvPairs(env))))
  {
    var id := NextId(s);
    var push := RPush(JobsKey, [Text(name)]);
    var s1 := RunScript(s, None, [push]).store;
    var s2 := RunScript(s1, None, StartCommands(id, args, env)).store;
    StartKeysApart(id);
    ScriptKeepsKey(s, None, [push], KeyParts(id, [Ascii("args")]));
    ScriptKeepsKey(s, None, [push], KeyParts(id, [Ascii("env")]));
    NameRoundTrip(s, name);
    StartKeepsJobList(s1, id, args, env, Text(Decimal(id)));
    StartWritesArgs(s1, id, args, env);
    StartWritesEnv(s1, id, args, env);
    var reply := Exec(s2, HGetAll(KeyParts(id, [Ascii("env")]))).1;
    ReadFromReplies(w, s2, id, name, args, reply.value.values);
  }

  /** Once the worker has run its publication over a working connection
      (whether or not the push then fails), the client's isComplete sees a
      status, and keeps seeing it
      whatever runs afterwards. */
  lemma PublishedStatusIsSeen(w: Worker, s: Store, id: nat, status: Bytes, later: seq<Command>)
    requires w.Prefix == JobsKey
    ensures StatusSet(Replay(RunScript(s, None, w.PublishCommands(Decimal(id), status)).store, later), id)
  {
    KeysAgree(w, id, [Ascii("status")]);
    KeysAgree(w, id, [Ascii("wait")]);
    var cmds := w.PublishCommands(Decimal(id), status);
    assert [Decimal(id), Ascii("status")] == [Decimal(id)] + [Ascii("status")];
    assert [Decimal(id), Ascii("wait")] == [Decimal(id)] + [Ascii("wait")];
    var s1 := Exec(s, cmds[0]).0;
    assert StatusSet(s1, id);
    var o := RunScript(s, None, cmds);
    assert cmds[1..] == [cmds[1]] && cmds[1..][1..] == [];
    assert Exec(s, cmds[0]).1.Ok?;
    assert o.store == RunScript(s1, None, [cmds[1]]).store;
    assert RunScript(s1, None, [cmds[1]]).store == Exec(s1, cmds[1]).0;
    assert StatusSet(o.store, id) by {
      StringKeyPersists(s1, cmds[1], KeyParts(id, [Ascii("status")]));
    }
    StatusStaysSet(o.store, id, later);
  }
}
