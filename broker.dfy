/** The broker the protocol runs on, reduced to the commands the core issues:
    RPUSH, BLPOP (as a dequeue), SETNX, GET, SET, HMSET, HGETALL, LRANGE 0 -1
    and LINDEX over a map from key to list, string or hash. `Exec` is the
    meaning of one command; `Conn` is a pooled connection that issues them. */
module Broker {

  import opened Wrappers
  import opened Bytes
  import opened Errors

  /** A value held under a key. A hash keeps its fields in insertion order,
      each field name once. */
  datatype Entry = List(items: seq<Bytes>) | Str(value: Bytes) | Hash(fields: seq<(Bytes, Bytes)>)

  type Store = map<Bytes, Entry>

  /** A command argument (redigo's `interface{}`): strings are sent as they
      are, integers in decimal. */
  datatype Arg = Text(text: Bytes) | Int(n: nat)

  function ArgBytes(a: Arg): Bytes
  {
    match a
    case Text(t) => t
    case Int(n) => Decimal(n)
  }

  function ArgsBytes(args: seq<Arg>): (r: seq<Bytes>)
    ensures |r| == |args|
    ensures forall i :: 0 <= i < |args| ==> r[i] == ArgBytes(args[i])
  {
    seq(|args|, i requires 0 <= i < |args| => ArgBytes(args[i]))
  }

  datatype Command =
    | RPush(key: Bytes, values: seq<Arg>)
    | BLPop(key: Bytes)                  // BLPOP key 0: wait forever
    | SetNX(key: Bytes, value: Arg)
    | Get(key: Bytes)
    | Set(key: Bytes, value: Arg)
    | HMSet(key: Bytes, pairs: seq<Arg>)
    | HGetAll(key: Bytes)
    | LRangeAll(key: Bytes)              // LRANGE key 0 -1
    | LIndex(key: Bytes, index: Arg)

  datatype Reply = Integer(n: int) | Bulk(value: Option<Bytes>) | Multi(values: seq<Bytes>) | Status

  /** HSET of one field: replaced in place if present, appended otherwise. */
  function HSet(fields: seq<(Bytes, Bytes)>, k: Bytes, v: Bytes): seq<(Bytes, Bytes)>
  {
    if fields == [] then [(k, v)]
    else if fields[0].0 == k then [(k, v)] + fields[1..]
    else [fields[0]] + HSet(fields[1..], k, v)
  }

  /** HMSET's flat `k1 v1 k2 v2 ...` argument list, applied left to right. */
  function HSetPairs(fields: seq<(Bytes, Bytes)>, pairs: seq<Bytes>): seq<(Bytes, Bytes)>
    decreases |pairs|
  {
    if |pairs| < 2 then fields else HSetPairs(HSet(fields, pairs[0], pairs[1]), pairs[2..])
  }

  /** HGETALL's flat reply. */
  function FlattenFields(fields: seq<(Bytes, Bytes)>): (r: seq<Bytes>)
    ensures |r| == 2 * |fields|
  {
    if fields == [] then [] else [fields[0].0, fields[0].1] + FlattenFields(fields[1..])
  }

  /** A BLPOP that would wait: the list is missing (lists are never left empty). */
  predicate Blocks(s: Store, c: Command)
  {
    c.BLPop? && (c.key !in s || (s[c.key].List? && s[c.key].items == []))
  }

  /** The effect and reply of one command. */
  function Exec(s: Store, c: Command): (Store, Result<Reply, Error>)
  {
    match c
    case RPush(key, values) =>
      if values == [] then (s, Err(WrongArity))
      else if key !in s then (s[key := List(ArgsBytes(values))], Ok(Integer(|values|)))
      else if s[key].List? then
        var l := s[key].items + ArgsBytes(values);
        (s[key := List(l)], Ok(Integer(|l|)))
      else (s, Err(WrongType))
    case BLPop(key) =>
      if key !in s then (s, Ok(Bulk(None)))
      else if !s[key].List? then (s, Err(WrongType))
      else if s[key].items == [] then (s, Ok(Bulk(None)))
      else
        var l := s[key].items;
        (if |l| == 1 then s - {key} else s[key := List(l[1..])], Ok(Bulk(Some(l[0]))))
    case SetNX(key, value) =>
      if key in s then (s, Ok(Integer(0))) else (s[key := Str(ArgBytes(value))], Ok(Integer(1)))
    case Get(key) =>
      if key !in s then (s, Ok(Bulk(None)))
      else if s[key].Str? then (s, Ok(Bulk(Some(s[key].value))))
      else (s, Err(WrongType))
    case Set(key, value) =>
      (s[key := Str(ArgBytes(value))], Ok(Status))
    case HMSet(key, pairs) =>
      if pairs == [] || |pairs| % 2 == 1 then (s, Err(WrongArity))
      else if key !in s then (s[key := Hash(HSetPairs([], ArgsBytes(pairs)))], Ok(Status))
      else if s[key].Hash? then (s[key := Hash(HSetPairs(s[key].fields, ArgsBytes(pairs)))], Ok(Status))
      else (s, Err(WrongType))
    case HGetAll(key) =>
      if key !in s then (s, Ok(Multi([])))
      else if s[key].Hash? then (s, Ok(Multi(FlattenFields(s[key].fields))))
      else (s, Err(WrongType))
    case LRangeAll(key) =>
      if key !in s then (s, Ok(Multi([])))
      else if s[key].List? then (s, Ok(Multi(s[key].items)))
      else (s, Err(WrongType))
    case LIndex(key, index) =>
      var i := match index case Int(n) => Some(n) case Text(t) => ParseDecimal(t);
      if key !in s then (s, Ok(Bulk(None)))
      else if !s[key].List? then (s, Err(WrongType))
      else if i.None? then (s, Err(NotInteger))
      else if i.value < |s[key].items| then (s, Ok(Bulk(Some(s[key].items[i.value]))))
      else (s, Ok(Bulk(None)))
  }

  /** A key that holds a string or a hash keeps holding one, whatever command
      runs next: nothing in this command set deletes such a key. */
  lemma HeldKeyPersists(s: Store, c: Command, key: Bytes)
    requires key in s && !s[key].List?
    ensures key in Exec(s, c).0 && !Exec(s, c).0[key].List?
  {
  }

  /** The store after `cmds` run in order from `s`. */
  function Replay(s: Store, cmds: seq<Command>): Store
    decreases |cmds|
  {
    if cmds == [] then s else Replay(Exec(s, cmds[0]).0, cmds[1..])
  }

  /** `c` is a SETNX on a key the store does not hold: the one that wins. */
  predicate Claims(s: Store, c: Command)
  {
    c.SetNX? && c.key !in s
  }

  /** A SETNX wins exactly when its reply is 1. */
  lemma ClaimsMeansReplyOne(s: Store, c: Command)
    ensures Claims(s, c) <==> c.SetNX? && Exec(s, c).1 == Ok(Integer(1))
  {
  }

  /** The keys of the SETNX commands that succeed when `cmds` run in order
      from `s`, in order. */
  function Won(s: Store, cmds: seq<Command>): seq<Bytes>
    decreases |cmds|
  {
    if cmds == [] then []
    else (if Claims(s, cmds[0]) then [cmds[0].key] else []) + Won(Exec(s, cmds[0]).0, cmds[1..])
  }

  /** Running two batches one after the other. */
  lemma {:induction false} ReplayWonAppend(s: Store, a: seq<Command>, b: seq<Command>)
    ensures Replay(s, a + b) == Replay(Replay(s, a), b)
    ensures Won(s, a + b) == Won(s, a) + Won(Replay(s, a), b)
    decreases |a|
  {
    if a == [] {
      assert a + b == b;
    } else {
      var step := Exec(s, a[0]);
      var head := if Claims(s, a[0]) then [a[0].key] else [];
      assert (a + b)[0] == a[0] && (a + b)[1..] == a[1..] + b;
      assert Replay(s, a + b) == Replay(step.0, a[1..] + b);
      assert Won(s, a + b) == head + Won(step.0, a[1..] + b);
      assert Replay(s, a) == Replay(step.0, a[1..]);
      assert Won(s, a) == head + Won(step.0, a[1..]);
      ReplayWonAppend(step.0, a[1..], b);
      assert head + (Won(step.0, a[1..]) + Won(Replay(s, a), b)) == (head + Won(step.0, a[1..])) + Won(Replay(s, a), b);
    }
  }

  predicate NoDuplicates(keys: seq<Bytes>)
  {
    forall i, j :: 0 <= i < j < |keys| ==> keys[i] != keys[j]
  }

  /** No SETNX wins a key that already holds a string or a hash. */
  lemma {:induction false} HeldKeyNeverWon(s: Store, cmds: seq<Command>, key: Bytes)
    requires key in s && !s[key].List?
    ensures key !in Won(s, cmds)
    decreases |cmds|
  {
    if cmds != [] {
      HeldKeyPersists(s, cmds[0], key);
      HeldKeyNeverWon(Exec(s, cmds[0]).0, cmds[1..], key);
    }
  }

  /** The claim is exclusive: over any interleaving of commands from any
      number of workers and clients on one broker, each key is won by at most
      one SETNX. */
  lemma {:induction false} ClaimIsExclusive(s: Store, cmds: seq<Command>)
    ensures NoDuplicates(Won(s, cmds))
    decreases |cmds|
  {
    if cmds != [] {
      var step := Exec(s, cmds[0]);
      ClaimIsExclusive(step.0, cmds[1..]);
      if Claims(s, cmds[0]) {
        HeldKeyNeverWon(step.0, cmds[1..], cmds[0].key);
      }
    }
  }

  /** The result of issuing `cmds` one after another and giving up at the
      first error, as every multi-command operation of the core does. */
  datatype Outcome = Outcome(store: Store, delivered: seq<Command>, err: Option<Error>)

  function RunScript(s: Store, failure: Option<Bytes>, cmds: seq<Command>): (o: Outcome)
    ensures o.delivered <= cmds
    ensures o.err.None? ==> o.delivered == cmds
    ensures o.err.Some? && failure.None? ==> |o.delivered| > 0
    ensures failure.Some? ==> o.store == s && o.delivered == [] && (cmds != [] ==> o.err == Some(Transport(failure.value)))
    decreases |cmds|
  {
    if cmds == [] then Outcome(s, [], None)
    else if failure.Some? then Outcome(s, [], Some(Transport(failure.value)))
    else
      var step := Exec(s, cmds[0]);
      if step.1.Err? then Outcome(step.0, [cmds[0]], Some(step.1.error))
      else
        var rest := RunScript(step.0, failure, cmds[1..]);
        Outcome(rest.store, [cmds[0]] + rest.delivered, rest.err)
  }

  /** A script run as two halves: the second half runs only when the first
      ends without error, from the store the first leaves. */
  lemma {:induction false} RunScriptAppend(s: Store, failure: Option<Bytes>, a: seq<Command>, b: seq<Command>)
    ensures var first := RunScript(s, failure, a);
      RunScript(s, failure, a + b) ==
        if first.err.Some? then first
        else
          var second := RunScript(first.store, failure, b);
          Outcome(second.store, first.delivered + second.delivered, second.err)
    decreases |a|
  {
    if a == [] {
      assert a + b == b;
    } else if failure.None? {
      assert (a + b)[0] == a[0] && (a + b)[1..] == a[1..] + b;
      RunScriptAppend(Exec(s, a[0]).0, failure, a[1..], b);
    }
  }

  /** A script that ends without error, then one more command: the whole
      run is the script's, followed by that command's execution. */
  lemma ScriptThenCommand(s: Store, failure: Option<Bytes>, a: seq<Command>, c: Command, log0: seq<Command>)
    requires RunScript(s, failure, a).err.None?
    ensures var first := RunScript(s, failure, a);
      var whole := RunScript(s, failure, a + [c]);
      && (failure.Some? ==> whole == Outcome(first.store, first.delivered, Some(Transport(failure.value))))
      && (failure.None? ==>
            && whole.store == Exec(first.store, c).0
            && log0 + whole.delivered == log0 + first.delivered + [c]
            && whole.err == (if Exec(first.store, c).1.Err? then Some(Exec(first.store, c).1.error) else None))
  {
    var first := RunScript(s, failure, a);
    RunScriptAppend(s, failure, a, [c]);
    RunScriptOne(first.store, failure, c);
    if failure.None? {
      assert log0 + (first.delivered + [c]) == log0 + first.delivered + [c];
    }
  }

  /** The reads change nothing. */
  lemma ReadKeepsStore(s: Store, c: Command)
    requires c.Get? || c.HGetAll? || c.LRangeAll? || c.LIndex?
    ensures Exec(s, c).0 == s
  {
  }

  /** A script of one command: its reply decides the outcome. */
  lemma RunScriptOne(s: Store, failure: Option<Bytes>, c: Command)
    ensures RunScript(s, failure, [c]) ==
      if failure.Some? then Outcome(s, [], Some(Transport(failure.value)))
      else if Exec(s, c).1.Err? then Outcome(Exec(s, c).0, [c], Some(Exec(s, c).1.error))
      else Outcome(Exec(s, c).0, [c], None)
  {
    assert [c][1..] == [];
  }

  /** A string key stays a string: the commands here never delete one, and
      only SET overwrites it, with a string. */
  lemma StringKeyPersists(s: Store, c: Command, key: Bytes)
    requires key in s && s[key].Str?
    ensures key in Exec(s, c).0 && Exec(s, c).0[key].Str?
  {
  }

  lemma {:induction false} StringKeyPersistsAll(s: Store, cmds: seq<Command>, key: Bytes)
    requires key in s && s[key].Str?
    ensures key in Replay(s, cmds) && Replay(s, cmds)[key].Str?
    decreases |cmds|
  {
    if cmds != [] {
      StringKeyPersists(s, cmds[0], key);
      StringKeyPersistsAll(Exec(s, cmds[0]).0, cmds[1..], key);
    }
  }

  /** A script whose commands all name other keys leaves `key` as it was:
      every command writes, or deletes, only its own key. */
  lemma {:induction false} ScriptKeepsKey(s: Store, failure: Option<Bytes>, cmds: seq<Command>, key: Bytes)
    requires forall i :: 0 <= i < |cmds| ==> cmds[i].key != key
    ensures var t := RunScript(s, failure, cmds).store;
      (key in t <==> key in s) && (key in s ==> t[key] == s[key])
    decreases |cmds|
  {
    if cmds != [] && failure.None? && Exec(s, cmds[0]).1.Ok? {
      ScriptKeepsKey(Exec(s, cmds[0]).0, failure, cmds[1..], key);
    }
  }

  /** Hence a read of `key` answers the same before and after the script. */
  lemma ScriptKeepsRead(s: Store, failure: Option<Bytes>, cmds: seq<Command>, c: Command)
    requires c.Get? || c.HGetAll? || c.LRangeAll? || c.LIndex?
    requires forall i :: 0 <= i < |cmds| ==> cmds[i].key != c.key
    ensures Exec(RunScript(s, failure, cmds).store, c).1 == Exec(s, c).1
  {
    ScriptKeepsKey(s, failure, cmds, c.key);
  }

  /** A pooled connection. `failure` models a broken transport: every command
      then fails without reaching the broker. `log` lists the commands that
      reached it, in order. */
  class Conn {
    var store: Store
    var failure: Option<Bytes>
    var log: seq<Command>

    constructor (initial: Store, failure: Option<Bytes>)
      ensures store == initial && this.failure == failure && log == []
    {
      store := initial;
      this.failure := failure;
      log := [];
    }

    /** `conn.Do(cmd)`: a BLPOP on an empty list would wait, so it is excluded. */
    method Do(cmd: Command) returns (r: Result<Reply, Error>)
      requires failure.Some? || !Blocks(store, cmd)
      modifies this
      ensures failure == old(failure)
      ensures old(failure).Some? ==> store == old(store) && log == old(log) && r == Err(Transport(old(failure).value))
      ensures old(failure).None? ==> (store, r) == Exec(old(store), cmd) && log == old(log) + [cmd]
    {
      if failure.Some? {
        r := Err(Transport(failure.value));
      } else {
        var step := Exec(store, cmd);
        store := step.0;
        r := step.1;
        log := log + [cmd];
      }
    }
  }
}
