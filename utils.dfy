/** utils.go: splitting "KEY=VALUE" pairs, boxing command arguments, and
    decoding a frame `name ":" body` (split on the first ':' only). */
module Utils {

  import opened Wrappers
  import opened Bytes
  import opened Errors
  import opened Broker

  /** The position of the first `b` in `s`. */
  function IndexOf(s: Bytes, b: byte): (r: Option<nat>)
    ensures r.None? <==> b !in s
    ensures r.Some? ==> r.value < |s| && s[r.value] == b && b !in s[..r.value]
  {
    if s == [] then None
    else if s[0] == b then Some(0)
    else
      match IndexOf(s[1..], b)
      case None => None
      case Some(i) =>
        assert s[1..][..i] == s[1..i + 1];
        Some(i + 1)
  }

  /** `strings.Split(s, sep)`: the pieces between occurrences of `sep`. */
  function Split(s: Bytes, sep: byte): (r: seq<Bytes>)
    ensures |r| >= 1
    decreases |s|
  {
    match IndexOf(s, sep)
    case None => [s]
    case Some(i) => [s[..i]] + Split(s[i + 1..], sep)
  }

  /** The first piece is everything before the first separator, and it holds
      no separator; with a separator present there is a second piece, made of
      what follows up to the next separator. */
  lemma SplitFirstPieces(s: Bytes, sep: byte)
    ensures sep !in Split(s, sep)[0]
    ensures sep !in s ==> Split(s, sep) == [s]
    ensures sep in s ==> (|Split(s, sep)| >= 2
                          && s == Split(s, sep)[0] + [sep] + s[|Split(s, sep)[0]| + 1..]
                          && Split(s, sep)[1] == Split(s[|Split(s, sep)[0]| + 1..], sep)[0])
  {
    var r := Split(s, sep);
    if sep in s {
      var i := IndexOf(s, sep).value;
      var rest := Split(s[i + 1..], sep);
      assert r == [s[..i]] + rest;
      assert r[0] == s[..i] && |r[0]| == i;
      assert r[1] == rest[0];
      assert s == s[..i] + [sep] + s[i + 1..];
    } else {
      assert r == [s];
    }
  }

  /** The key of an environment entry: what precedes its first '='. */
  function EnvKey(pair: Bytes): Bytes
  {
    Split(pair, Equals)[0]
  }

  /** The value of an environment entry: what lies between its first and its
      second '=' (or the end). */
  function EnvValue(pair: Bytes): Bytes
    requires Equals in pair
  {
    SplitFirstPieces(pair, Equals);
    Split(pair, Equals)[1]
  }

  predicate HasEquals(env: seq<Bytes>)
  {
    forall k :: 0 <= k < |env| ==> Equals in env[k]
  }

  /** splitEnv: a pair without '=' makes `parts[1]` panic, so every pair must
      hold one. */
  method SplitEnv(env: seq<Bytes>) returns (out: seq<Bytes>)
    requires HasEquals(env)
    ensures |out| == 2 * |env|
    ensures forall k :: 0 <= k < |env| ==> out[2 * k] == EnvKey(env[k]) && out[2 * k + 1] == EnvValue(env[k])
    ensures out == EnvPairs(env)
  {
    var a := new Bytes[|env| * 2];
    var i := 0;
    var j := 0;
    while j < |env|
      invariant 0 <= j <= |env| && i == 2 * j
      invariant forall k :: 0 <= k < j ==> a[2 * k] == EnvKey(env[k]) && a[2 * k + 1] == EnvValue(env[k])
    {
      var parts := Split(env[j], Equals);
      SplitFirstPieces(env[j], Equals);
      a[i] := parts[0];
      a[i + 1] := parts[1];
      i := i + 2;
      j := j + 1;
    }
    out := a[..];
    PairsAreEnvPairs(env, out);
  }

  /** A flat list holding each entry's key and then its value is EnvPairs. */
  lemma PairsAreEnvPairs(env: seq<Bytes>, out: seq<Bytes>)
    requires HasEquals(env) && |out| == 2 * |env|
    requires forall k :: 0 <= k < |env| ==> out[2 * k] == EnvKey(env[k]) && out[2 * k + 1] == EnvValue(env[k])
    ensures out == EnvPairs(env)
  {
    forall i | 0 <= i < |out|
      ensures out[i] == EnvPairs(env)[i]
    {
      var k := i / 2;
      if i == 2 * k {
        assert out[2 * k] == EnvKey(env[k]) == EnvPairs(env)[2 * k];
      } else {
        assert i == 2 * k + 1;
        assert out[2 * k + 1] == EnvValue(env[k]) == EnvPairs(env)[2 * k + 1];
      }
    }
  }

  /** The flat list splitEnv returns, as a function for use in specifications. */
  function EnvPairs(env: seq<Bytes>): (r: seq<Bytes>)
    requires HasEquals(env)
    ensures |r| == 2 * |env|
    ensures forall k :: 0 <= k < |env| ==> r[2 * k] == EnvKey(env[k]) && r[2 * k + 1] == EnvValue(env[k])
  {
    if env == [] then []
    else [EnvKey(env[0]), EnvValue(env[0])] + EnvPairs(env[1..])
  }

  /** A value is the segment after the first '=' only: "A=b=c" has value "b". */
  lemma EnvValueStopsAtSecondEquals()
    ensures EnvKey([65, Equals, 98, Equals, 99]) == [65]
    ensures EnvValue([65, Equals, 98, Equals, 99]) == [98]
  {
    var s: Bytes := [65, Equals, 98, Equals, 99];
    assert IndexOf(s, Equals) == Some(1);
    assert s[2..] == [98, Equals, 99];
    assert IndexOf(s[2..], Equals) == Some(1);
    assert Split(s, Equals) == [s[..1]] + Split(s[2..], Equals);
    assert Split(s[2..], Equals)[0] == s[2..][..1] == [98];
  }

  /** asInterfaceSlice: each string boxed as a command argument, in order. */
  method AsInterfaceSlice(value: seq<Bytes>) returns (out: seq<Arg>)
    ensures |out| == |value|
    ensures forall i :: 0 <= i < |value| ==> out[i] == Text(value[i])
    ensures out == Texts(value)
  {
    var a := new Arg[|value|](_ => Int(0));
    var i := 0;
    while i < |value|
      invariant 0 <= i <= |value|
      invariant forall k :: 0 <= k < i ==> a[k] == Text(value[k])
    {
      a[i] := Text(value[i]);
      i := i + 1;
    }
    out := a[..];
  }

  /** The same boxing as a function. */
  function Texts(value: seq<Bytes>): (r: seq<Arg>)
    ensures |r| == |value|
    ensures forall i :: 0 <= i < |value| ==> r[i] == Text(value[i])
  {
    seq(|value|, i requires 0 <= i < |value| => Text(value[i]))
  }

  datatype Message = Message(Id: Bytes, Body: Bytes)

  /** parseMessage on the popped payload: `bytes.SplitN(b, ":", 2)`. */
  function ParseMessage(payload: Bytes): (r: Result<Message, Error>)
    ensures r.Err? <==> Colon !in payload
    ensures r.Err? ==> r.error == InvalidResponseType
    ensures r.Ok? ==> Colon !in r.value.Id && payload == r.value.Id + [Colon] + r.value.Body
  {
    match IndexOf(payload, Colon)
    case None => Err(InvalidResponseType)
    case Some(i) =>
      assert payload == payload[..i] + [Colon] + payload[i + 1..];
      Ok(Message(payload[..i], payload[i + 1..]))
  }
}
