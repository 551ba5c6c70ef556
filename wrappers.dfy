/** Option and Result, used for Python's `None` and for raised exceptions. */
module Wrappers {

  datatype Option<+T> = None | Some(value: T) {
    function GetOr(default: T): T {
      match this
      case Some(v) => v
      case None => default
    }
  }

  /** `Err` stands for an exception raised by a call; `error` is its message. */
  datatype Result<+T, +E> = Ok(value: T) | Err(error: E)
}

/** Sequence helpers shared by the modules: filtering and joining. */
module Seqs {

  /** Python's list comprehension `[x for x in s if p(x)]`. */
  function Filter<T(!new)>(p: T -> bool, s: seq<T>): (r: seq<T>)
    ensures |r| <= |s|
    ensures forall x :: x in r <==> x in s && p(x)
  {
    if s == [] then []
    else Filter(p, s[..|s| - 1]) + (if p(s[|s| - 1]) then [s[|s| - 1]] else [])
  }

  /** Filtering distributes over concatenation, so the order of the kept elements is preserved. */
  lemma {:induction false} FilterConcat<T(!new)>(p: T -> bool, a: seq<T>, b: seq<T>)
    ensures Filter(p, a + b) == Filter(p, a) + Filter(p, b)
    decreases |b|
  {
    if b == [] {
      assert a + b == a;
    } else {
      var b' := b[..|b| - 1];
      assert (a + b)[..|a + b| - 1] == a + b';
      FilterConcat(p, a, b');
    }
  }

  lemma FilterSnoc<T(!new)>(p: T -> bool, s: seq<T>, x: T)
    ensures Filter(p, s + [x]) == Filter(p, s) + (if p(x) then [x] else [])
  {
    assert (s + [x])[..|s|] == s;
  }

  /** Concatenation regroups freely; stated once so that large contexts need not rediscover it. */
  lemma AppendAssoc<T>(a: seq<T>, b: seq<T>, c: seq<T>)
    ensures (a + b) + c == a + (b + c)
  {
  }

  /** The three pieces of a concatenation are read back by slicing. */
  lemma Slices3<T>(a: seq<T>, b: seq<T>, c: seq<T>)
    ensures (a + b + c)[..|a|] == a
    ensures (a + b + c)[|a|..|a| + |b|] == b
    ensures (a + b + c)[|a| + |b|..] == c
  {
    var s := a + b + c;
    assert s[..|a|] == a;
    assert s[|a|..|a| + |b|] == b;
    assert s[|a| + |b|..] == c;
  }

  /** Python's `sep.join(parts)`. */
  function Join(parts: seq<string>, sep: string): string
  {
    if parts == [] then ""
    else if |parts| == 1 then parts[0]
    else parts[0] + sep + Join(parts[1..], sep)
  }

  lemma {:induction false} JoinSnoc(parts: seq<string>, last: string, sep: string)
    requires parts != []
    ensures Join(parts + [last], sep) == Join(parts, sep) + sep + last
    decreases |parts|
  {
    if |parts| == 1 {
      assert (parts + [last])[1..] == [last];
    } else {
      assert (parts + [last])[1..] == parts[1..] + [last];
      JoinSnoc(parts[1..], last, sep);
    }
  }

  /** A line-joined text with no parts is the empty string, and one with parts starts with the first. */
  lemma {:induction false} JoinPrefix(parts: seq<string>, sep: string)
    ensures parts == [] ==> Join(parts, sep) == ""
    ensures parts != [] ==> |parts[0]| <= |Join(parts, sep)| && Join(parts, sep)[..|parts[0]|] == parts[0]
  {
    if |parts| > 1 {
      var j := Join(parts, sep);
      assert j == parts[0] + (sep + Join(parts[1..], sep));
    }
  }

  predicate StartsWith(s: string, prefix: string) {
    |prefix| <= |s| && s[..|prefix|] == prefix
  }

  /** Number of strings in `lines` that start with `prefix`. */
  function CountStartingWith(lines: seq<string>, prefix: string): nat
  {
    if lines == [] then 0
    else CountStartingWith(lines[..|lines| - 1], prefix) + (if StartsWith(lines[|lines| - 1], prefix) then 1 else 0)
  }

  lemma {:induction false} CountConcat(a: seq<string>, b: seq<string>, prefix: string)
    ensures CountStartingWith(a + b, prefix) == CountStartingWith(a, prefix) + CountStartingWith(b, prefix)
    decreases |b|
  {
    if b == [] {
      assert a + b == a;
    } else {
      assert (a + b)[..|a + b| - 1] == a + b[..|b| - 1];
      CountConcat(a, b[..|b| - 1], prefix);
    }
  }

  predicate AllStartWith(lines: seq<string>, tag: string)
  {
    forall i :: 0 <= i < |lines| ==> StartsWith(lines[i], tag)
  }

  /** Two prefixes told apart by their first three characters. */
  predicate Distinguishable(tag: string, prefix: string)
  {
    tag == prefix || (|tag| >= 3 && |prefix| >= 3 && (tag[0] != prefix[0] || tag[1] != prefix[1] || tag[2] != prefix[2]))
  }

  /**
   * In lines that all start with `tag`, the lines starting with `prefix` are
   * all of them when it is the same prefix, and none when the two differ early.
   */
  lemma {:induction false} CountTagged(lines: seq<string>, tag: string, prefix: string)
    requires AllStartWith(lines, tag) && Distinguishable(tag, prefix)
    ensures CountStartingWith(lines, prefix) == if tag == prefix then |lines| else 0
    decreases |lines|
  {
    if lines != [] {
      var last := lines[|lines| - 1];
      CountTagged(lines[..|lines| - 1], tag, prefix);
      if tag != prefix {
        assert last[..|tag|][0] == last[0] && last[..|tag|][1] == last[1] && last[..|tag|][2] == last[2];
      }
    }
  }
}
