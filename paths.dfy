/** Broker keys are slash-separated paths built with `path.Join`: the
    non-empty elements joined by '/'. A path segment here is a non-empty
    string without '/'. */
module Paths {

  import opened Wrappers
  import opened Bytes
  import opened Utils

  predicate Segment(s: Bytes)
  {
    s != [] && Slash !in s
  }

  predicate Segments(parts: seq<Bytes>)
  {
    forall i :: 0 <= i < |parts| ==> Segment(parts[i])
  }

  /** `path.Join(parts...)` for elements that need no cleaning: empty
      elements are skipped, the others joined by '/'. */
  function Join(parts: seq<Bytes>): (r: Bytes)
    ensures parts != [] && parts[0] != [] ==> |r| > 0
  {
    if parts == [] then []
    else
      var init := Join(parts[..|parts| - 1]);
      var last := parts[|parts| - 1];
      if last == [] then init
      else if init == [] then last
      else init + [Slash] + last
  }

  /** Where the first separator of a concatenation is. */
  lemma {:induction false} IndexOfAppend(x: Bytes, y: Bytes, sep: byte)
    ensures IndexOf(x + y, sep) ==
      if sep in x then IndexOf(x, sep)
      else if sep in y then Some(|x| + IndexOf(y, sep).value)
      else None
    decreases |x|
  {
    if x == [] {
      assert x + y == y;
    } else {
      assert (x + y)[1..] == x[1..] + y;
      IndexOfAppend(x[1..], y, sep);
    }
  }

  /** Concatenation regrouped. */
  lemma AppendAssoc<T>(a: seq<T>, b: seq<T>, c: seq<T>)
    ensures a + (b + c) == a + b + c
  {
  }

  /** Splitting at a separator with nothing after it but a tail free of
      separators peels that tail off the end. */
  lemma {:induction false} SplitLast(x: Bytes, b: Bytes, sep: byte)
    requires sep !in b
    ensures Split(x + [sep] + b, sep) == Split(x, sep) + [b]
    decreases |x|
  {
    var s := x + [sep] + b;
    if sep in x {
      var i := IndexOf(x, sep).value;
      var rest := x[i + 1..];
      assert IndexOf(s, sep) == Some(i) by {
        assert s == x + ([sep] + b);
        IndexOfAppend(x, [sep] + b, sep);
      }
      assert s[..i] == x[..i];
      assert s[i + 1..] == rest + [sep] + b;
      SplitLast(rest, b, sep);
      assert Split(s, sep) == [x[..i]] + (Split(rest, sep) + [b]);
      assert Split(x, sep) == [x[..i]] + Split(rest, sep);
      AppendAssoc([x[..i]], Split(rest, sep), [b]);
    } else {
      SplitLastFree(x, b, sep);
    }
  }

  /** SplitLast when x itself holds no separator: two pieces, x and b. */
  lemma SplitLastFree(x: Bytes, b: Bytes, sep: byte)
    requires sep !in b && sep !in x
    ensures Split(x + [sep] + b, sep) == Split(x, sep) + [b]
  {
    var s := x + [sep] + b;
    assert IndexOf(s, sep) == Some(|x|) by {
      assert s == x + ([sep] + b);
      IndexOfAppend(x, [sep] + b, sep);
    }
    assert s[..|x|] == x && s[|x| + 1..] == b;
    assert Split(s, sep) == [x] + Split(b, sep);
    assert Split(b, sep) == [b];
    assert Split(x, sep) == [x];
  }

  /** Joining one more non-empty element after a non-empty path adds '/'
      and that element. */
  lemma JoinSnoc(p: Bytes, parts: seq<Bytes>)
    requires p != [] && parts != [] && parts[|parts| - 1] != []
    ensures Join([p] + parts) == Join([p] + parts[..|parts| - 1]) + [Slash] + parts[|parts| - 1]
  {
    var all := [p] + parts;
    assert all[..|all| - 1] == [p] + parts[..|parts| - 1];
    assert all[|all| - 1] == parts[|parts| - 1];
  }

  /** The segments before the last are segments, and so is the last. */
  lemma SegmentsInit(parts: seq<Bytes>)
    requires parts != [] && Segments(parts)
    ensures Segments(parts[..|parts| - 1]) && Segment(parts[|parts| - 1])
  {
    var init := parts[..|parts| - 1];
    forall i | 0 <= i < |init|
      ensures Segment(init[i])
    {
      assert init[i] == parts[i];
    }
  }

  /** Putting the last element back after the others restores the sequence. */
  lemma AppendInitLast<T>(a: seq<T>, parts: seq<T>)
    requires parts != []
    ensures a + parts[..|parts| - 1] + [parts[|parts| - 1]] == a + parts
  {
    assert parts[..|parts| - 1] + [parts[|parts| - 1]] == parts;
  }

  /** Splitting a joined path at '/' gives back how its first element splits,
      then the segments after it, so a key built this way determines them. */
  lemma {:induction false} SplitJoin(p: Bytes, parts: seq<Bytes>)
    requires p != [] && Segments(parts)
    ensures Split(Join([p] + parts), Slash) == Split(p, Slash) + parts
    decreases |parts|
  {
    if parts == [] {
      assert [p] + parts == [p] && [p][..0] == [];
    } else {
      var init := parts[..|parts| - 1];
      var last := parts[|parts| - 1];
      var head := Join([p] + init);
      SegmentsInit(parts);
      SplitJoin(p, init);
      JoinSnoc(p, parts);
      SplitLast(head, last, Slash);
      assert Join([p] + parts) == head + [Slash] + last;
      assert Split(head + [Slash] + last, Slash) == Split(head, Slash) + [last];
      assert Split(head, Slash) == Split(p, Slash) + init;
      AppendInitLast(Split(p, Slash), parts);
    }
  }

  /** Joining a first element with a segment ahead of the rest gives the
      same key as joining their concatenation with '/' ahead of the rest:
      `Join(["/jobs", "3", "wait"]) == Join(["/jobs/3", "wait"])`. */
  lemma {:induction false} JoinRegroup(p: Bytes, q: Bytes, rest: seq<Bytes>)
    requires p != [] && Segment(q)
    ensures Join([p, q] + rest) == Join([p + [Slash] + q] + rest)
    decreases |rest|
  {
    if rest == [] {
      assert [p, q][..1] == [p];
      assert [p][..0] == [];
    } else {
      var init := rest[..|rest| - 1];
      JoinRegroup(p, q, init);
      assert ([p, q] + rest)[..|[p, q] + rest| - 1] == [p, q] + init;
      assert ([p + [Slash] + q] + rest)[..|[p + [Slash] + q] + rest| - 1] == [p + [Slash] + q] + init;
      assert [p] + init == ([p] + init);
      assert |Join([p, q] + init)| > 0;
    }
  }
}
