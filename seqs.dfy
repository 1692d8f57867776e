/** The array operations the program relies on (`find`, `findIndex`,
    `filter`, `join`, and `split` as a reader of joined text would use it),
    stated once over sequences. */
module Seqs {
  import opened Wrappers

  /** `Array.prototype.findIndex`: the position of the first element that
      satisfies `p`, or `None` when no element does. */
  function FindFirst<T>(s: seq<T>, p: T -> bool): (r: Option<nat>)
    ensures r.Some? ==> r.value < |s| && p(s[r.value])
    ensures r.Some? ==> forall j | 0 <= j < r.value :: !p(s[j])
    ensures r.None? <==> forall j | 0 <= j < |s| :: !p(s[j])
  {
    if |s| == 0 then None
    else if p(s[0]) then Some(0)
    else match FindFirst(s[1..], p)
      case None => None
      case Some(i) => Some(i + 1)
  }

  /** `Array.prototype.filter`: the elements that satisfy `p`, in order. */
  function Filter<T>(s: seq<T>, p: T -> bool): (r: seq<T>)
    ensures |r| <= |s|
    ensures forall i | 0 <= i < |r| :: r[i] in s && p(r[i])
    ensures forall i | 0 <= i < |s| && p(s[i]) :: s[i] in r
  {
    if |s| == 0 then []
    else (if p(s[0]) then [s[0]] else []) + Filter(s[1..], p)
  }

  /** Filtering distributes over concatenation, so the kept elements stay in
      their original relative order. */
  lemma {:induction false} FilterAppend<T>(a: seq<T>, b: seq<T>, p: T -> bool)
    ensures Filter(a + b, p) == Filter(a, p) + Filter(b, p)
  {
    if |a| > 0 {
      assert (a + b)[1..] == a[1..] + b;
      FilterAppend(a[1..], b, p);
    } else {
      assert a + b == b;
    }
  }

  /** A filter that every element passes changes nothing. */
  lemma {:induction false} FilterKeepsAll<T>(s: seq<T>, p: T -> bool)
    requires forall j | 0 <= j < |s| :: p(s[j])
    ensures Filter(s, p) == s
  {
    if |s| > 0 {
      FilterKeepsAll(s[1..], p);
    }
  }

  /** Filtering twice by the same predicate is filtering once. */
  lemma FilterIdempotent<T>(s: seq<T>, p: T -> bool)
    ensures Filter(Filter(s, p), p) == Filter(s, p)
  {
    var r := Filter(s, p);
    FilterKeepsAll(r, p);
  }

  /** A filter that keeps every element satisfying `p` does not change which
      element a search for `p` finds. */
  lemma {:induction false} FindFirstFilter<T>(s: seq<T>, p: T -> bool, keep: T -> bool)
    requires forall i | 0 <= i < |s| :: p(s[i]) ==> keep(s[i])
    ensures FindFirst(Filter(s, keep), p).Some? == FindFirst(s, p).Some?
    ensures FindFirst(s, p).Some? ==>
              Filter(s, keep)[FindFirst(Filter(s, keep), p).value] == s[FindFirst(s, p).value]
  {
    if |s| > 0 {
      FindFirstFilter(s[1..], p, keep);
      if keep(s[0]) {
        FindFirstFilterKept(s, p, keep);
      } else {
        FindFirstFilterDropped(s, p, keep);
      }
    }
  }

  /** The step of `FindFirstFilter` when the head is kept. */
  lemma FindFirstFilterKept<T>(s: seq<T>, p: T -> bool, keep: T -> bool)
    requires |s| > 0 && keep(s[0])
    requires FindFirst(Filter(s[1..], keep), p).Some? == FindFirst(s[1..], p).Some?
    requires FindFirst(s[1..], p).Some? ==>
               Filter(s[1..], keep)[FindFirst(Filter(s[1..], keep), p).value] == s[1..][FindFirst(s[1..], p).value]
    ensures FindFirst(Filter(s, keep), p).Some? == FindFirst(s, p).Some?
    ensures FindFirst(s, p).Some? ==>
              Filter(s, keep)[FindFirst(Filter(s, keep), p).value] == s[FindFirst(s, p).value]
  {
    var rest := Filter(s[1..], keep);
    FilterKept(s, keep);
    FindFirstCons(s[0], rest, p);
    FindFirstTail(s, p);
    if !p(s[0]) && FindFirst(s, p).Some? {
      var m := FindFirst(rest, p).value;
      assert ([s[0]] + rest)[m + 1] == rest[m];
    }
  }

  /** The step of `FindFirstFilter` when the head is dropped, which it is
      only when it does not match. */
  lemma FindFirstFilterDropped<T>(s: seq<T>, p: T -> bool, keep: T -> bool)
    requires |s| > 0 && !keep(s[0]) && !p(s[0])
    requires FindFirst(Filter(s[1..], keep), p).Some? == FindFirst(s[1..], p).Some?
    requires FindFirst(s[1..], p).Some? ==>
               Filter(s[1..], keep)[FindFirst(Filter(s[1..], keep), p).value] == s[1..][FindFirst(s[1..], p).value]
    ensures FindFirst(Filter(s, keep), p).Some? == FindFirst(s, p).Some?
    ensures FindFirst(s, p).Some? ==>
              Filter(s, keep)[FindFirst(Filter(s, keep), p).value] == s[FindFirst(s, p).value]
  {
    FilterDropped(s, keep);
    FindFirstTail(s, p);
  }

  /** Filtering a list whose head is dropped is filtering its tail. */
  lemma FilterDropped<T>(s: seq<T>, keep: T -> bool)
    requires |s| > 0 && !keep(s[0])
    ensures Filter(s, keep) == Filter(s[1..], keep)
  {
  }

  /** Filtering a list whose head is kept keeps that head in front. */
  lemma FilterKept<T>(s: seq<T>, keep: T -> bool)
    requires |s| > 0 && keep(s[0])
    ensures Filter(s, keep) == [s[0]] + Filter(s[1..], keep)
  {
  }

  /** Searching `[x] + t`: `x` itself when it matches, otherwise one past the
      match in `t`. */
  lemma FindFirstCons<T>(x: T, t: seq<T>, p: T -> bool)
    ensures p(x) ==> FindFirst([x] + t, p) == Some(0)
    ensures !p(x) && FindFirst(t, p).None? ==> FindFirst([x] + t, p).None?
    ensures !p(x) && FindFirst(t, p).Some? ==> FindFirst([x] + t, p) == Some(FindFirst(t, p).value + 1)
  {
    assert ([x] + t)[1..] == t;
  }

  /** The same, stated on a non-empty list and its tail. */
  lemma FindFirstTail<T>(s: seq<T>, p: T -> bool)
    requires |s| > 0
    ensures p(s[0]) ==> FindFirst(s, p) == Some(0)
    ensures !p(s[0]) && FindFirst(s[1..], p).None? ==> FindFirst(s, p).None?
    ensures !p(s[0]) && FindFirst(s[1..], p).Some? ==> FindFirst(s, p) == Some(FindFirst(s[1..], p).value + 1)
  {
  }

  /** Finding the first element that satisfies `p` and replacing it by
      `f` of itself; every other element, and the length, stay as they were. */
  function UpdateFirst<T>(s: seq<T>, p: T -> bool, f: T -> T): (r: seq<T>)
    ensures |r| == |s|
    ensures FindFirst(s, p).None? ==> r == s
    ensures FindFirst(s, p).Some? ==> r == s[FindFirst(s, p).value := f(s[FindFirst(s, p).value])]
  {
    if |s| == 0 then []
    else if p(s[0]) then [f(s[0])] + s[1..]
    else [s[0]] + UpdateFirst(s[1..], p, f)
  }

  /** `Array.prototype.join(sep)`: the parts with `sep` between neighbours,
      and nothing before the first or after the last. */
  function Join(parts: seq<string>, sep: string): string
  {
    if |parts| == 0 then ""
    else if |parts| == 1 then parts[0]
    else parts[0] + sep + Join(parts[1..], sep)
  }

  /** Joining two non-empty runs of parts is joining each and putting one
      separator between them. */
  lemma {:induction false} JoinConcat(a: seq<string>, b: seq<string>, sep: string)
    requires |a| >= 1 && |b| >= 1
    ensures Join(a + b, sep) == Join(a, sep) + sep + Join(b, sep)
  {
    assert (a + b)[1..] == a[1..] + b;
    if |a| > 1 {
      JoinConcat(a[1..], b, sep);
    }
  }

  /** Cutting `s` at every occurrence of `sep`, as `String.prototype.split`
      does with a one-character separator. */
  function Split(s: string, sep: char): (r: seq<string>)
    ensures |r| >= 1
    ensures forall i | 0 <= i < |r| :: sep !in r[i]
    decreases |s|
  {
    match FindFirst(s, c => c == sep)
    case None =>
      [s]
    case Some(k) =>
      assert forall j | 0 <= j < k :: s[..k][j] == s[j];
      [s[..k]] + Split(s[k + 1..], sep)
  }

  /** Text without the separator is a single piece. */
  lemma SplitWithoutSeparator(a: string, sep: char)
    requires sep !in a
    ensures Split(a, sep) == [a]
  {
  }

  /** The first separator after separator-free text `a` is the one that
      follows `a`. */
  lemma SplitAfterPiece(a: string, b: string, sep: char)
    requires sep !in a
    ensures Split(a + [sep] + b, sep) == [a] + Split(b, sep)
  {
    var s := a + [sep] + b;
    assert s[|a|] == sep;
    var k := FindFirst(s, c => c == sep);
    assert k.Some?;
    assert k.value == |a|;
    assert s[..|a|] == a;
    assert s[|a| + 1..] == b;
  }

  /** Concatenation is associative; `SplitJoinThen` regroups with it. */
  lemma SeqAssoc<T>(a: seq<T>, b: seq<T>, c: seq<T>)
    ensures a + b + c == a + (b + c)
  {
  }

  /** Splitting joined lines followed by a separator and more text gives the
      lines back, then the pieces of that text. */
  lemma {:induction false} SplitJoinThen(parts: seq<string>, rest: string, sep: char)
    requires |parts| >= 1
    requires forall i | 0 <= i < |parts| :: sep !in parts[i]
    ensures Split(Join(parts, [sep]) + [sep] + rest, sep) == parts + Split(rest, sep)
  {
    if |parts| == 1 {
      SplitAfterPiece(parts[0], rest, sep);
    } else {
      var head, joined := parts[0], Join(parts[1..], [sep]);
      var tail := joined + [sep] + rest;
      assert Join(parts, [sep]) + [sep] + rest == head + [sep] + tail by {
        assert Join(parts, [sep]) == head + [sep] + joined;
        SeqAssoc(head + [sep], joined, [sep] + rest);
      }
      calc {
        Split(Join(parts, [sep]) + [sep] + rest, sep);
        Split(head + [sep] + tail, sep);
        { SplitAfterPiece(head, tail, sep); }
        [head] + Split(tail, sep);
        { SplitJoinThen(parts[1..], rest, sep); }
        [head] + (parts[1..] + Split(rest, sep));
        { SeqAssoc([head], parts[1..], Split(rest, sep)); }
        ([head] + parts[1..]) + Split(rest, sep);
        { assert parts == [head] + parts[1..]; }
        parts + Split(rest, sep);
      }
    }
  }

  /** Splitting joined lines gives the lines back, provided no line holds
      the separator: there is one piece per part, in order, and no trailing
      empty piece. */
  lemma {:induction false} SplitJoin(parts: seq<string>, sep: char)
    requires |parts| >= 1
    requires forall i | 0 <= i < |parts| :: sep !in parts[i]
    ensures Split(Join(parts, [sep]), sep) == parts
  {
    if |parts| == 1 {
      SplitWithoutSeparator(parts[0], sep);
    } else {
      SplitJoin(parts[1..], sep);
      SplitAfterPiece(parts[0], Join(parts[1..], [sep]), sep);
      assert parts == [parts[0]] + parts[1..];
    }
  }
}
